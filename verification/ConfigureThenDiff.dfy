/** Configure, apply, diff: what the proposed patch achieves. */
module ConfigureThenDiff {
  import opened Values
  import opened JsonPatch
  import opened ActionConfig

  /** The contract names a supported backend and declares the action's shape readably. */
  ghost predicate Declares(contract: Mapping, action: string, toInt: ToInt) {
    var backend := BackendClass(contract, map[]);
    || (backend == "http_api"
        && ShapeOf(contract, "action_shapes", action).Some?
        && CanonicalShape(ShapeOf(contract, "action_shapes", action).value,
                          ShapeOf(contract, "action_shapes", action).value, toInt).Some?)
    || (IsCommand(backend)
        && ShapeOf(contract, "command_shapes", action).Some?
        && ArgsOf(Get(ShapeOf(contract, "command_shapes", action).value, "args")).Some?)
  }

  /** The connector entry the patch leads to. */
  function FinalConfig(contract: Mapping, action: string, enabled: bool): Mapping {
    var backend := BackendClass(contract, map[]);
    if backend == "http_api" && ShapeOf(contract, "action_shapes", action).Some? then
      map["enabled" := Bool(enabled), "backend" := Str("http_api"),
          "actions" := Dict(map[action := Dict(HttpTemplate(ShapeOf(contract, "action_shapes", action).value))])]
    else if IsCommand(backend) && ShapeOf(contract, "command_shapes", action).Some?
         && AllowlistEntry(action, ShapeOf(contract, "command_shapes", action).value).Some? then
      map["enabled" := Bool(enabled), "backend" := Str(backend),
          "allowlist" := List([AllowlistEntry(action, ShapeOf(contract, "command_shapes", action).value).value])]
    else map[]
  }

  // ---------------------------------------------------------------- one step, applied

  lemma {:induction false} AddOne(m: Mapping, c: string, v: Value)
    ensures AddAt(Dict(m), [c], v) == Some(Dict(m[c := v]))
  {
  }

  lemma {:induction false} AddTwo(m: Mapping, c: string, config: Mapping, k: string, v: Value)
    requires c in m && m[c] == Dict(config)
    ensures AddAt(Dict(m), [c, k], v) == Some(Dict(m[c := Dict(config[k := v])]))
  {
    AddOne(config, k, v);
    AddLift(m, c, [k], v, Dict(config[k := v]));
    assert [c] + [k] == [c, k];
  }

  lemma {:induction false} AddThree(m: Mapping, c: string, config: Mapping, k: string, inner: Value, a: string, v: Value, inner': Value)
    requires c in m && m[c] == Dict(config) && k in config && config[k] == inner
    requires AddAt(inner, [a], v) == Some(inner')
    ensures AddAt(Dict(m), [c, k, a], v) == Some(Dict(m[c := Dict(config[k := inner'])]))
  {
    AddLift(config, k, [a], v, inner');
    assert [k] + [a] == [k, a];
    AddLift(m, c, [k, a], v, Dict(config[k := inner']));
    assert [c] + [k, a] == [c, k, a];
  }

  /** The three additions of a fresh connector: the entry, its empty slot, the slot's content. */
  lemma {:induction false} ThreeAdds(rest: Mapping, env: Mapping, m: Mapping, c: string, base: Mapping,
                                     slot: string, empty: Value, a: string, v: Value, full: Value)
    requires PlainName(c) && PlainName(slot) && PlainName(a)
    requires AddAt(empty, [a], v) == Some(full)
    ensures var m' := m[c := Dict(base[slot := full])]; var path := ConnectorPath(c);
      Apply(Document(rest, env, m),
            [AddOp(Pointer(path), Dict(base[slot := empty])), AddOp(Pointer(path + [slot]), empty),
             AddOp(Pointer(path + [slot, a]), v)])
        == Some(Document(rest, env, m'))
  {
    var config := base[slot := empty];
    var m1, m2 := m[c := Dict(config)], m[c := Dict(base[slot := full])];
    FreshEntry(rest, env, m, c, config);
    EmptySlot(rest, env, m1, c, config, slot, empty);
    FilledSlot(rest, env, m1, c, config, slot, empty, a, v, full);
    assert config[slot := full] == base[slot := full] && m1[c := Dict(config[slot := full])] == m2;
    var path := ConnectorPath(c);
    ThreeOps(Document(rest, env, m), AddOp(Pointer(path), Dict(config)), AddOp(Pointer(path + [slot]), empty),
             AddOp(Pointer(path + [slot, a]), v), Document(rest, env, m1), Document(rest, env, m1), Document(rest, env, m2));
  }

  lemma {:induction false} FreshEntry(rest: Mapping, env: Mapping, m: Mapping, c: string, config: Mapping)
    requires PlainName(c)
    ensures (Add(Document(rest, env, m), Pointer(ConnectorPath(c)), Dict(config))
             == Some(Document(rest, env, m[c := Dict(config)])))
  {
    AddOne(m, c, Dict(config));
    AddBelow(rest, env, m, [c], Dict(config), m[c := Dict(config)]);
    assert ConnectorPath(c) == ["environment", "connectors"] + [c];
  }

  lemma {:induction false} EmptySlot(rest: Mapping, env: Mapping, m: Mapping, c: string, config: Mapping,
                                     slot: string, empty: Value)
    requires PlainName(c) && PlainName(slot)
    requires c in m && m[c] == Dict(config) && slot in config && config[slot] == empty
    ensures (Add(Document(rest, env, m), Pointer(ConnectorPath(c) + [slot]), empty)
             == Some(Document(rest, env, m)))
  {
    AddTwo(m, c, config, slot, empty);
    assert config[slot := empty] == config && m[c := Dict(config)] == m;
    AddBelow(rest, env, m, [c, slot], empty, m);
    assert ConnectorPath(c) + [slot] == ["environment", "connectors"] + [c, slot];
  }

  lemma {:induction false} FilledSlot(rest: Mapping, env: Mapping, m: Mapping, c: string, config: Mapping,
                                      slot: string, empty: Value, a: string, v: Value, full: Value)
    requires PlainName(c) && PlainName(slot) && PlainName(a)
    requires c in m && m[c] == Dict(config) && slot in config && config[slot] == empty
    requires AddAt(empty, [a], v) == Some(full)
    ensures (Add(Document(rest, env, m), Pointer(ConnectorPath(c) + [slot, a]), v)
             == Some(Document(rest, env, m[c := Dict(config[slot := full])])))
  {
    AddThree(m, c, config, slot, empty, a, v, full);
    AddBelow(rest, env, m, [c, slot, a], v, m[c := Dict(config[slot := full])]);
    assert ConnectorPath(c) + [slot, a] == ["environment", "connectors"] + [c, slot, a];
  }

  lemma {:induction false} ThreeOps(d: Value, a: Op, b: Op, c: Op, d1: Value, d2: Value, d3: Value)
    requires a.AddOp? && b.AddOp? && c.AddOp?
    requires Add(d, a.path, a.value) == Some(d1) && Add(d1, b.path, b.value) == Some(d2) && Add(d2, c.path, c.value) == Some(d3)
    ensures Apply(d, [a, b, c]) == Some(d3)
  {
    var ops := [a, b, c];
    assert ops[1..] == [b, c] && [b, c][1..] == [c] && [c][1..] == [];
    assert Apply(d3, []) == Some(d3);
    assert Apply(d2, [c]) == Some(d3);
    assert Apply(d1, [b, c]) == Some(d3);
  }

  predicate Fresh(m: Mapping, connector: string) {
    ConfigOf(m, connector) == map[]
  }

  /** The names that enter a pointer need no escaping; a command's action enters none. */
  predicate Pointable(step: Step, contract: Mapping) {
    PlainName(step.connector) && (BackendClass(contract, map[]) == "http_api" ==> PlainName(step.action))
  }

  lemma {:induction false} HttpFreshOps(step: Step, contract: Mapping, template: Option<Mapping>, shape: Mapping)
    requires ShapeOf(contract, "action_shapes", step.action) == Some(shape)
    ensures var path := ConnectorPath(step.connector);
      HttpOps(step, contract, map[], template)
        == [AddOp(Pointer(path), Dict(map["enabled" := Bool(false), "backend" := Str("http_api"), "actions" := Dict(map[])])),
            AddOp(Pointer(path + ["actions"]), Dict(map[])),
            AddOp(Pointer(path + ["actions", step.action]), Dict(HttpTemplate(shape)))]
  {
  }

  lemma {:induction false} CommandFreshOps(step: Step, backend: string, contract: Mapping, template: Option<Mapping>, shape: Mapping)
    requires ShapeOf(contract, "command_shapes", step.action) == Some(shape) && AllowlistEntry(step.action, shape).Some?
    ensures var path := ConnectorPath(step.connector);
      CommandOps(step, backend, contract, map[], template)
        == Some([AddOp(Pointer(path), Dict(map["enabled" := Bool(false), "backend" := Str(backend), "allowlist" := List([])])),
                 AddOp(Pointer(path + ["allowlist"]), List([])),
                 AddOp(Pointer(path + ["allowlist", "-"]), AllowlistEntry(step.action, shape).value)])
  {
    var path := ConnectorPath(step.connector);
    var none: Mapping := map[];
    var a := EntryOps(step.connector, backend, "allowlist", List([]), none);
    var b := [AddOp(Pointer(path + ["allowlist"]), List([]))];
    var c := [AddOp(Pointer(path + ["allowlist", "-"]), AllowlistEntry(step.action, shape).value)];
    assert CommandOps(step, backend, contract, none, template) == Some(a + b + c);
    assert a + b + c == [a[0], b[0], c[0]];
  }

  lemma {:induction false} HttpApplies(step: Step, contract: Mapping, template: Option<Mapping>, shape: Mapping,
                                       rest: Mapping, env: Mapping, at: Mapping)
    requires ShapeOf(contract, "action_shapes", step.action) == Some(shape)
    requires PlainName(step.connector) && PlainName(step.action)
    ensures Apply(Document(rest, env, at), HttpOps(step, contract, map[], template))
         == Some(Document(rest, env, at[step.connector := Dict(
              map["enabled" := Bool(false), "backend" := Str("http_api"),
                  "actions" := Dict(map[step.action := Dict(HttpTemplate(shape))])])]))
  {
    var base: Mapping, none: Mapping := map["enabled" := Bool(false), "backend" := Str("http_api")], map[];
    var content := Dict(HttpTemplate(shape));
    HttpFreshOps(step, contract, template, shape);
    AddOne(none, step.action, content);
    ThreeAdds(rest, env, at, step.connector, base, "actions", Dict(none), step.action, content, Dict(none[step.action := content]));
    assert none[step.action := content] == map[step.action := content];
  }

  lemma {:induction false} CommandApplies(step: Step, backend: string, contract: Mapping, template: Option<Mapping>,
                                          shape: Mapping, rest: Mapping, env: Mapping, at: Mapping)
    requires ShapeOf(contract, "command_shapes", step.action) == Some(shape) && AllowlistEntry(step.action, shape).Some?
    requires PlainName(step.connector)
    ensures var ops := CommandOps(step, backend, contract, map[], template);
      && ops.Some?
      && Apply(Document(rest, env, at), ops.value)
           == Some(Document(rest, env, at[step.connector := Dict(
                map["enabled" := Bool(false), "backend" := Str(backend),
                    "allowlist" := List([AllowlistEntry(step.action, shape).value])])]))
  {
    var base: Mapping := map["enabled" := Bool(false), "backend" := Str(backend)];
    CommandFreshOps(step, backend, contract, template, shape);
    var entry := AllowlistEntry(step.action, shape).value;
    assert [] + [entry] == [entry];
    ThreeAdds(rest, env, at, step.connector, base, "allowlist", List([]), "-", entry, List([entry]));
  }

  /** Applying one step's operations creates the connector as declared, disabled. */
  lemma {:induction false} StepApplies(step: Step, contract: Mapping, toInt: ToInt, template: Option<Mapping>,
                                       rest: Mapping, env: Mapping, m: Mapping, at: Mapping)
    requires Declares(contract, step.action, toInt) && Fresh(m, step.connector) && Pointable(step, contract)
    ensures StepOps(step, contract, m, template).Some?
    ensures Apply(Document(rest, env, at), StepOps(step, contract, m, template).value)
         == Some(Document(rest, env, at[step.connector := Dict(FinalConfig(contract, step.action, false))]))
  {
    var backend := BackendClass(contract, map[]);
    if backend == "http_api" {
      HttpApplies(step, contract, template, ShapeOf(contract, "action_shapes", step.action).value, rest, env, at);
    } else {
      CommandApplies(step, backend, contract, template, ShapeOf(contract, "command_shapes", step.action).value, rest, env, at);
    }
  }

  lemma {:induction false} HttpIsQuiet(step: Step, contract: Mapping, template: Option<Mapping>, config: Mapping)
    requires config != map[] && Get(config, "backend") == Str("http_api")
    requires ShapeOf(contract, "action_shapes", step.action).Some?
    requires Get(config, "actions").Dict? && Get(Get(config, "actions").fields, step.action).Dict?
    ensures HttpOps(step, contract, config, template) == []
  {
  }

  lemma {:induction false} CommandIsQuiet(step: Step, backend: string, contract: Mapping, template: Option<Mapping>,
                                          config: Mapping, entry: Mapping)
    requires config != map[] && Get(config, "backend") == Str(backend)
    requires ShapeOf(contract, "command_shapes", step.action).Some?
    requires Get(config, "allowlist") == List([Dict(entry)]) && TextOr(Get(entry, "action")) == step.action
    ensures CommandOps(step, backend, contract, config, template) == Some([])
  {
    assert Get(config, "allowlist").items[0] == Dict(entry);
    assert ListsAction(Get(config, "allowlist").items, step.action);
    var none: seq<Op> := [];
    assert EntryOps(step.connector, backend, "allowlist", List([]), config) == none;
    assert none + none == none;
  }

  /** The final entry names its backend, so the contract no longer decides it. */
  lemma {:induction false} FinalBackend(contract: Mapping, action: string, toInt: ToInt, enabled: bool)
    requires Declares(contract, action, toInt)
    ensures var config := FinalConfig(contract, action, enabled); var backend := BackendClass(contract, map[]);
      && config != map[] && Get(config, "backend") == Str(backend) && BackendClass(contract, config) == backend
      && config.Keys <= {"enabled", "backend", "actions", "allowlist"} && Get(config, "enabled") == Bool(enabled)
  {
    var backend := BackendClass(contract, map[]);
    StripIdempotent(backend);
    if backend == "http_api" {
      NamedBackend(contract, backend, enabled, "actions",
                   Dict(map[action := Dict(HttpTemplate(ShapeOf(contract, "action_shapes", action).value))]));
    } else {
      NamedBackend(contract, backend, enabled, "allowlist",
                   List([AllowlistEntry(action, ShapeOf(contract, "command_shapes", action).value).value]));
    }
  }

  lemma {:induction false} NamedBackend(contract: Mapping, backend: string, enabled: bool, slot: string, v: Value)
    requires backend != "" && Strip(backend) == backend && slot in {"actions", "allowlist"}
    ensures var config := map["enabled" := Bool(enabled), "backend" := Str(backend), slot := v];
      && config != map[] && Get(config, "backend") == Str(backend) && BackendClass(contract, config) == backend
      && config.Keys <= {"enabled", "backend", "actions", "allowlist"} && Get(config, "enabled") == Bool(enabled)
  {
    assert "enabled" in map["enabled" := Bool(enabled), "backend" := Str(backend), slot := v];
  }

  /** Configure has nothing more to say about a connector it configured. */
  lemma {:induction false} ConfiguredIsQuiet(step: Step, contract: Mapping, toInt: ToInt, template: Option<Mapping>,
                                             m: Mapping, enabled: bool)
    requires Declares(contract, step.action, toInt)
    requires Get(m, step.connector) == Dict(FinalConfig(contract, step.action, enabled))
    ensures StepOps(step, contract, m, template) == Some([])
  {
    var config := FinalConfig(contract, step.action, enabled);
    var backend := BackendClass(contract, map[]);
    FinalBackend(contract, step.action, toInt, enabled);
    if backend == "http_api" {
      HttpIsQuiet(step, contract, template, config);
    } else {
      var entry := AllowlistEntry(step.action, ShapeOf(contract, "command_shapes", step.action).value).value;
      CommandIsQuiet(step, backend, contract, template, config, entry.fields);
    }
  }

  /** The two supported kinds of backend names carry no blanks. */
  lemma {:induction false} StripIdempotent(backend: string)
    requires backend == "http_api" || IsCommand(backend)
    ensures Strip(backend) == backend
  {
    StripOfUnpadded(backend);
  }

  lemma {:induction false} TemplateKeepsShape(shape: Mapping, config: Mapping, toInt: ToInt)
    requires "max_response_bytes" !in config
    ensures CanonicalShape(HttpTemplate(shape), config, toInt) == CanonicalShape(shape, shape, toInt)
  {
    forall k | k in TEMPLATE_KEYS ensures Get(HttpTemplate(shape), k) == Get(shape, k) {}
    assert "pagination" in TEMPLATE_KEYS && "max_response_bytes" in TEMPLATE_KEYS && "query" in TEMPLATE_KEYS;
    assert "method" in TEMPLATE_KEYS && "path" in TEMPLATE_KEYS && "body" in TEMPLATE_KEYS;
    assert "unwrap" in TEMPLATE_KEYS && "mutating" in TEMPLATE_KEYS;
  }

  lemma {:induction false} NoMismatch(a: Mapping, fields: seq<string>)
    ensures Mismatched(a, a, fields) == []
  {
    if fields != [] { NoMismatch(a, fields[1..]); }
  }

  /** A connector as configure leaves it differs from its contract in nothing but being disabled. */
  lemma {:induction false} BackendAligned(step: Step, contract: Mapping, toInt: ToInt, enabled: bool)
    requires Declares(contract, step.action, toInt) && step.action != ""
    ensures var backend := BackendClass(contract, map[]); var config := FinalConfig(contract, step.action, enabled);
      var d := BackendDiff(step, backend, contract, config, toInt);
      d.Some? && d.value.drift == [] && |d.value.checks| == 3
      && (forall i :: 0 <= i < 3 ==> d.value.checks[i].passed && d.value.checks[i].id != "diff_support")
  {
    var backend, config := BackendClass(contract, map[]), FinalConfig(contract, step.action, enabled);
    if backend == "http_api" {
      var shape := ShapeOf(contract, "action_shapes", step.action).value;
      HttpAligned(step, contract, config, shape, toInt);
    } else {
      var shape := ShapeOf(contract, "command_shapes", step.action).value;
      CommandAligned(step, contract, config, shape);
    }
  }

  lemma {:induction false} HttpAligned(step: Step, contract: Mapping, config: Mapping, shape: Mapping, toInt: ToInt)
    requires ShapeOf(contract, "action_shapes", step.action) == Some(shape)
    requires CanonicalShape(shape, shape, toInt).Some? && "max_response_bytes" !in config
    requires Get(config, "actions") == Dict(map[step.action := Dict(HttpTemplate(shape))])
    ensures var d := HttpDiff(step, contract, config, toInt);
      d.Some? && d.value.drift == [] && |d.value.checks| == 3
      && (forall i :: 0 <= i < 3 ==> d.value.checks[i].passed && d.value.checks[i].id != "diff_support")
  {
    TemplateKeepsShape(shape, config, toInt);
    NoMismatch(CanonicalShape(shape, shape, toInt).value, SHAPE_FIELDS);
    var actions := Get(config, "actions");
    assert Get(actions.fields, step.action) == Dict(HttpTemplate(shape));
  }

  lemma {:induction false} CommandAligned(step: Step, contract: Mapping, config: Mapping, shape: Mapping)
    requires ShapeOf(contract, "command_shapes", step.action) == Some(shape) && step.action != ""
    requires AllowlistEntry(step.action, shape).Some?
    requires Get(config, "allowlist") == List([AllowlistEntry(step.action, shape).value])
    ensures CommandDiff(step, contract, config)
         == Some(Diff([Check("profile_command_shape", true), Check("allowlist_entry", true), Check("command_match", true)], []))
  {
    var entry := AllowlistEntry(step.action, shape).value.fields;
    var items := Get(config, "allowlist").items;
    assert items[0] == Dict(entry);
    assert Get(entry, "action") == Str(step.action) && Get(entry, "command") == Str(TextOr(Get(shape, "command")));
    assert FindEntry(items, step.action) == Some(entry);
    var args := ArgsOf(Get(shape, "args")).value;
    assert Get(entry, "args") == List(args);
    assert ArgsOf(Get(entry, "args")) == Some(args);
  }

  lemma {:induction false} ComparedWith(step: Step, contract: Mapping, config: Mapping, toInt: ToInt, d: Diff, enabled: bool)
    requires contract != map[] && config != map[] && Enabled(config) == enabled
    requires BackendClass(contract, config) == Strip(TextOr(Get(contract, "backend")))
    requires BackendDiff(step, BackendClass(contract, config), contract, config, toInt) == Some(d) && d.drift == []
    ensures CompareStep(step, contract, config, toInt)
         == Some(Diff([Check("profile_contract", true), Check("connector_configured", true),
                       Check("connector_enabled", enabled), Check("backend_match", true)] + d.checks,
                      if enabled then [] else ["enabled"]))
  {
    var flag: seq<string> := if enabled then [] else ["enabled"];
    assert flag + [] + d.drift == flag;
  }

  lemma {:induction false} DiffAfterConfigure(step: Step, contract: Mapping, toInt: ToInt, enabled: bool)
    requires Declares(contract, step.action, toInt) && step.action != ""
    ensures var d := CompareStep(step, contract, FinalConfig(contract, step.action, enabled), toInt);
      && d.Some?
      && d.value.drift == (if enabled then [] else ["enabled"])
      && StepStatus(d.value.checks) == (if enabled then Aligned else Drifted)
  {
    var config := FinalConfig(contract, step.action, enabled);
    FinalBackend(contract, step.action, toInt, enabled);
    BackendAligned(step, contract, toInt, enabled);
    ContractIsNotEmpty(contract, step.action, toInt);
    var d := BackendDiff(step, BackendClass(contract, map[]), contract, config, toInt).value;
    ComparedWith(step, contract, config, toInt, d, enabled);
    StatusOf([Check("profile_contract", true), Check("connector_configured", true),
              Check("connector_enabled", enabled), Check("backend_match", true)], d.checks, enabled);
  }

  lemma {:induction false} ContractIsNotEmpty(contract: Mapping, action: string, toInt: ToInt)
    requires Declares(contract, action, toInt)
    ensures contract != map[] && BackendClass(contract, map[]) == Strip(TextOr(Get(contract, "backend")))
  {
  }

  lemma {:induction false} StatusOf(head: seq<Check>, tail: seq<Check>, enabled: bool)
    requires head == [Check("profile_contract", true), Check("connector_configured", true),
                      Check("connector_enabled", enabled), Check("backend_match", true)]
    requires forall i :: 0 <= i < |tail| ==> tail[i].passed
    ensures StepStatus(head + tail) == if enabled then Aligned else Drifted
  {
    var all := head + tail;
    assert all[2] == Check("connector_enabled", enabled);
    assert forall i :: 0 <= i < |all| && i != 2 ==> all[i].passed;
  }

  // ---------------------------------------------------------------- whole workflows

  /** Every step can be configured from scratch. */
  ghost predicate Configurable(steps: seq<Step>, profile: Profile, toInt: ToInt, m: Mapping) {
    forall i :: 0 <= i < |steps| ==> ConfigurableStep(steps[i], profile(steps[i].connector), toInt, m)
  }

  ghost predicate ConfigurableStep(step: Step, contract: Mapping, toInt: ToInt, m: Mapping) {
    && Declares(contract, step.action, toInt) && Fresh(m, step.connector)
    && Pointable(step, contract) && step.action != ""
  }

  /** No connector is asked for two different actions. */
  ghost predicate OneActionEach(steps: seq<Step>) {
    forall i, j :: 0 <= i < |steps| && 0 <= j < |steps| ==> SameAction(steps[i], steps[j])
  }

  ghost predicate SameAction(a: Step, b: Step) {
    a.connector == b.connector ==> a.action == b.action
  }

  /** The connectors with every step's entry in place. */
  function Configured(steps: seq<Step>, profile: Profile, at: Mapping, enabled: bool): Mapping {
    if steps == [] then at
    else
      var s := steps[0];
      Configured(steps[1..], profile, at[s.connector := Dict(FinalConfig(profile(s.connector), s.action, enabled))], enabled)
  }

  lemma {:induction false} ConfiguredKeeps(steps: seq<Step>, profile: Profile, at: Mapping, enabled: bool, c: string)
    requires forall i :: 0 <= i < |steps| ==> steps[i].connector != c
    ensures Get(Configured(steps, profile, at, enabled), c) == Get(at, c)
  {
    if steps != [] {
      var s := steps[0];
      ConfiguredKeeps(steps[1..], profile, at[s.connector := Dict(FinalConfig(profile(s.connector), s.action, enabled))], enabled, c);
    }
  }

  /** The entry of a connector is the one its last step made. */
  lemma {:induction false} LastEntry(steps: seq<Step>, profile: Profile, at: Mapping, enabled: bool, i: nat) returns (j: nat)
    requires i < |steps|
    ensures j < |steps| && steps[j].connector == steps[i].connector
    ensures (Get(Configured(steps, profile, at, enabled), steps[i].connector)
             == Dict(FinalConfig(profile(steps[i].connector), steps[j].action, enabled)))
    decreases |steps|
  {
    var s := steps[0];
    var next := at[s.connector := Dict(FinalConfig(profile(s.connector), s.action, enabled))];
    if i > 0 {
      j := LastEntry(steps[1..], profile, next, enabled, i - 1);
      j := j + 1;
    } else if later: nat :| later < |steps[1..]| && steps[1..][later].connector == s.connector {
      j := LastEntry(steps[1..], profile, next, enabled, later);
      j := j + 1;
    } else {
      j := 0;
      ConfiguredKeeps(steps[1..], profile, next, enabled, s.connector);
    }
  }

  lemma {:induction false} PatchApplies(steps: seq<Step>, profile: Profile, toInt: ToInt, template: Option<Mapping>,
                                        rest: Mapping, env: Mapping, m: Mapping, at: Mapping)
    requires Configurable(steps, profile, toInt, m)
    ensures Configure(steps, profile, m, template).Some?
    ensures Apply(Document(rest, env, at), Configure(steps, profile, m, template).value)
         == Some(Document(rest, env, Configured(steps, profile, at, false)))
    decreases |steps|
  {
    if steps != [] {
      var s := steps[0];
      var next := at[s.connector := Dict(FinalConfig(profile(s.connector), s.action, false))];
      assert ConfigurableStep(s, profile(s.connector), toInt, m);
      StepApplies(s, profile(s.connector), toInt, template, rest, env, m, at);
      PatchApplies(steps[1..], profile, toInt, template, rest, env, m, next);
      ApplyConcat(Document(rest, env, at), StepOps(s, profile(s.connector), m, template).value,
                  Configure(steps[1..], profile, m, template).value);
    }
  }

  /** A patch is empty exactly when every step's part of it is. */
  lemma {:induction false} QuietExactly(steps: seq<Step>, opsOf: Step -> Option<seq<Op>>)
    ensures (Gathered(steps, opsOf) == Some([]) <==>
              forall i :: 0 <= i < |steps| ==> opsOf(steps[i]) == Some([]))
  {
    if steps != [] {
      QuietExactly(steps[1..], opsOf);
      assert steps == [steps[0]] + steps[1..];
      var none: seq<Op> := [];
      assert none + none == none;
    }
  }

  lemma {:induction false} HttpNotQuiet(step: Step, other: string, contract: Mapping, toInt: ToInt,
                                        template: Option<Mapping>, m: Mapping, enabled: bool)
    requires BackendClass(contract, map[]) == "http_api" && other != step.action
    requires Declares(contract, step.action, toInt) && Declares(contract, other, toInt)
    requires Get(m, step.connector) == Dict(FinalConfig(contract, other, enabled))
    ensures StepOps(step, contract, m, template) != Some([])
  {
    FinalBackend(contract, other, toInt, enabled);
    HttpOther(step, other, contract, template, FinalConfig(contract, other, enabled));
  }

  lemma {:induction false} CommandNotQuiet(step: Step, other: string, contract: Mapping, toInt: ToInt,
                                           template: Option<Mapping>, m: Mapping, enabled: bool)
    requires IsCommand(BackendClass(contract, map[])) && other != step.action
    requires Declares(contract, step.action, toInt) && Declares(contract, other, toInt)
    requires Get(m, step.connector) == Dict(FinalConfig(contract, other, enabled))
    ensures StepOps(step, contract, m, template) != Some([])
  {
    FinalBackend(contract, other, toInt, enabled);
    var entry := AllowlistEntry(other, ShapeOf(contract, "command_shapes", other).value).value;
    CommandOther(step, BackendClass(contract, map[]), contract, template, FinalConfig(contract, other, enabled), entry.fields);
  }

  /** A connector configured for another action still wants operations for this one. */
  lemma {:induction false} OtherActionIsNotQuiet(step: Step, other: string, contract: Mapping, toInt: ToInt,
                                                 template: Option<Mapping>, m: Mapping, enabled: bool)
    requires Declares(contract, step.action, toInt) && Declares(contract, other, toInt) && other != step.action
    requires Get(m, step.connector) == Dict(FinalConfig(contract, other, enabled))
    ensures StepOps(step, contract, m, template) != Some([])
  {
    if BackendClass(contract, map[]) == "http_api" {
      HttpNotQuiet(step, other, contract, toInt, template, m, enabled);
    } else {
      CommandNotQuiet(step, other, contract, toInt, template, m, enabled);
    }
  }

  lemma {:induction false} HttpOther(step: Step, other: string, contract: Mapping, template: Option<Mapping>, config: Mapping)
    requires ShapeOf(contract, "action_shapes", step.action).Some?
    requires Get(config, "actions").Dict? && step.action !in Get(config, "actions").fields
    ensures HttpOps(step, contract, config, template) != []
  {
    var ops := HttpOps(step, contract, config, template);
    assert ops[|ops| - 1].AddOp?;
  }

  lemma {:induction false} CommandOther(step: Step, backend: string, contract: Mapping, template: Option<Mapping>,
                                        config: Mapping, entry: Mapping)
    requires ShapeOf(contract, "command_shapes", step.action).Some?
    requires Get(config, "allowlist") == List([Dict(entry)]) && TextOr(Get(entry, "action")) != step.action
    ensures CommandOps(step, backend, contract, config, template) != Some([])
  {
    var ops := CommandOps(step, backend, contract, config, template);
    assert !ListsAction(Get(config, "allowlist").items, step.action);
    if ops.Some? { assert ops.value[|ops.value| - 1].AddOp?; }
  }

  /** The step of a configured workflow as diff sees it. */
  ghost predicate OnlyDisabled(step: Step, profile: Profile, toInt: ToInt, m: Mapping, enabled: bool) {
    var d := CompareStep(step, profile(step.connector), ConfigOf(m, step.connector), toInt);
    && d.Some? && d.value.drift == (if enabled then [] else ["enabled"])
    && StepStatus(d.value.checks) == (if enabled then Aligned else Drifted)
  }

  /** The proposed patch applies, and leads to the environment with every step's entry in place
      and every other connector as it was. */
  lemma {:induction false} PatchLeadsTo(steps: seq<Step>, profile: Profile, toInt: ToInt, template: Option<Mapping>,
                                        rest: Mapping, env: Mapping, m: Mapping)
    requires Configurable(steps, profile, toInt, m)
    ensures Configure(steps, profile, m, template).Some?
    ensures Apply(Document(rest, env, m), Configure(steps, profile, m, template).value)
         == Some(Document(rest, env, Configured(steps, profile, m, false)))
    ensures forall c, enabled :: (forall i :: 0 <= i < |steps| ==> steps[i].connector != c) ==>
              Get(Configured(steps, profile, m, enabled), c) == Get(m, c)
  {
    PatchApplies(steps, profile, toInt, template, rest, env, m, m);
    forall c, enabled | (forall i :: 0 <= i < |steps| ==> steps[i].connector != c)
      ensures Get(Configured(steps, profile, m, enabled), c) == Get(m, c)
    {
      ConfiguredKeeps(steps, profile, m, enabled, c);
    }
  }

  /** The step wants nothing more, and only being disabled sets it apart from its contract. */
  ghost predicate Settled(step: Step, profile: Profile, toInt: ToInt, template: Option<Mapping>, m: Mapping, enabled: bool) {
    && OpsOf(profile, m, template)(step) == Some([])
    && OnlyDisabled(step, profile, toInt, m, enabled)
  }

  lemma {:induction false} StepSettles(steps: seq<Step>, profile: Profile, toInt: ToInt, template: Option<Mapping>,
                                       m: Mapping, enabled: bool, i: nat)
    requires Configurable(steps, profile, toInt, m) && OneActionEach(steps) && i < |steps|
    ensures Settled(steps[i], profile, toInt, template, Configured(steps, profile, m, enabled), enabled)
  {
    var s, m' := steps[i], Configured(steps, profile, m, enabled);
    assert ConfigurableStep(s, profile(s.connector), toInt, m);
    var j := LastEntry(steps, profile, m, enabled, i);
    assert SameAction(s, steps[j]);
    ConfiguredIsQuiet(s, profile(s.connector), toInt, template, m', enabled);
    DiffAfterConfigure(s, profile(s.connector), toInt, enabled);
  }

  /** After the patch, configure has nothing more to say exactly when no connector is asked for
      two different actions. */
  lemma {:induction false} ConfigureConvergesExactly(steps: seq<Step>, profile: Profile, toInt: ToInt,
                                                     template: Option<Mapping>, m: Mapping, enabled: bool)
    requires Configurable(steps, profile, toInt, m)
    ensures (Configure(steps, profile, Configured(steps, profile, m, enabled), template) == Some([])
             <==> OneActionEach(steps))
  {
    var m' := Configured(steps, profile, m, enabled);
    QuietExactly(steps, OpsOf(profile, m', template));
    if OneActionEach(steps) {
      forall i | 0 <= i < |steps| ensures OpsOf(profile, m', template)(steps[i]) == Some([]) {
        StepSettles(steps, profile, toInt, template, m, enabled, i);
      }
    } else {
      var i, j :| 0 <= i < |steps| && 0 <= j < |steps| && !SameAction(steps[i], steps[j]);
      var k := LastEntry(steps, profile, m, enabled, i);
      var lost := if steps[k].action == steps[i].action then j else i;
      LostStep(steps, profile, toInt, template, m, enabled, lost, k);
    }
  }

  lemma {:induction false} LostStep(steps: seq<Step>, profile: Profile, toInt: ToInt, template: Option<Mapping>,
                                    m: Mapping, enabled: bool, i: nat, k: nat)
    requires Configurable(steps, profile, toInt, m) && i < |steps| && k < |steps|
    requires steps[i].connector == steps[k].connector && steps[i].action != steps[k].action
    requires (Get(Configured(steps, profile, m, enabled), steps[i].connector)
              == Dict(FinalConfig(profile(steps[i].connector), steps[k].action, enabled)))
    ensures OpsOf(profile, Configured(steps, profile, m, enabled), template)(steps[i]) != Some([])
  {
    var contract := profile(steps[i].connector);
    assert ConfigurableStep(steps[i], contract, toInt, m) && ConfigurableStep(steps[k], contract, toInt, m);
    OtherActionIsNotQuiet(steps[i], steps[k].action, contract, toInt, template, Configured(steps, profile, m, enabled), enabled);
  }

  /** Then every step's only drift is that its connector is disabled, and enabling the
      connectors aligns every step. */
  lemma {:induction false} DriftIsOnlyDisabled(steps: seq<Step>, profile: Profile, toInt: ToInt, m: Mapping, enabled: bool)
    requires Configurable(steps, profile, toInt, m) && OneActionEach(steps)
    ensures forall i :: 0 <= i < |steps| ==>
              OnlyDisabled(steps[i], profile, toInt, Configured(steps, profile, m, enabled), enabled)
  {
    forall i | 0 <= i < |steps|
      ensures OnlyDisabled(steps[i], profile, toInt, Configured(steps, profile, m, enabled), enabled)
    {
      StepSettles(steps, profile, toInt, None, m, enabled, i);
    }
  }

  // ---------------------------------------------------------------- where it does not converge

  predicate HasAction(config: Mapping, action: string) {
    Get(config, "actions").Dict? && action in Get(config, "actions").fields
  }

  lemma {:induction false} OnlyItsAction(contract: Mapping, action: string, other: string, toInt: ToInt)
    requires BackendClass(contract, map[]) == "http_api" && Declares(contract, action, toInt)
    ensures HasAction(FinalConfig(contract, action, false), other) <==> other == action
  {
  }

  lemma {:induction false} ConfiguredTwice(a: Step, b: Step, profile: Profile, m: Mapping)
    requires a.connector == b.connector
    ensures Configured([a, b], profile, m, false)
         == m[b.connector := Dict(FinalConfig(profile(b.connector), b.action, false))]
  {
    var one := m[a.connector := Dict(FinalConfig(profile(a.connector), a.action, false))];
    var two := one[b.connector := Dict(FinalConfig(profile(b.connector), b.action, false))];
    assert [a, b][1..] == [b] && [b][1..] == [];
    assert Configured([b], profile, one, false) == two;
  }

  /** Two steps on one new connector: the second step's operations replace the entry the first
      step's made, so the first action is missing from the patched environment. */
  lemma {:induction false} SharedConnectorLosesAction(first: Step, second: Step, profile: Profile, toInt: ToInt,
                                                      template: Option<Mapping>, rest: Mapping, env: Mapping, m: Mapping)
    requires first.connector == second.connector && first.action != second.action
    requires BackendClass(profile(first.connector), map[]) == "http_api"
    requires Configurable([first, second], profile, toInt, m)
    ensures Configure([first, second], profile, m, template).Some?
    ensures var config := FinalConfig(profile(first.connector), second.action, false);
      && Apply(Document(rest, env, m), Configure([first, second], profile, m, template).value)
           == Some(Document(rest, env, m[first.connector := Dict(config)]))
      && HasAction(config, second.action) && !HasAction(config, first.action)
  {
    var contract := profile(first.connector);
    assert [first, second][1] == second;
    PatchApplies([first, second], profile, toInt, template, rest, env, m, m);
    ConfiguredTwice(first, second, profile, m);
    OnlyItsAction(contract, second.action, first.action, toInt);
    OnlyItsAction(contract, second.action, second.action, toInt);
  }

  lemma {:induction false} NoPlaceForConnector(rest: Mapping, env: Mapping, c: string, v: Value)
    requires "connectors" !in env && PlainName(c)
    ensures Add(Dict(rest["environment" := Dict(env)]), Pointer(ConnectorPath(c)), v) == None
  {
    var tokens := ConnectorPath(c);
    assert PlainName("environment") && PlainName("connectors");
    TokensOfPointer(tokens);
    assert tokens[1..] == ["connectors", c];
    assert AddAt(Dict(env), tokens[1..], v) == None;
  }

  /** An environment without a connectors mapping: the patch names a place that is not there. */
  lemma {:induction false} NoConnectorsNoPatch(step: Step, contract: Mapping, toInt: ToInt, template: Option<Mapping>,
                                               rest: Mapping, env: Mapping)
    requires Declares(contract, step.action, toInt) && "connectors" !in env && PlainName(step.connector)
    ensures StepOps(step, contract, map[], template).Some?
    ensures Apply(Dict(rest["environment" := Dict(env)]), StepOps(step, contract, map[], template).value) == None
  {
    FirstOp(step, contract, toInt, template);
    var ops := StepOps(step, contract, map[], template).value;
    NoPlaceForConnector(rest, env, step.connector, ops[0].value);
  }

  lemma {:induction false} FirstOp(step: Step, contract: Mapping, toInt: ToInt, template: Option<Mapping>)
    requires Declares(contract, step.action, toInt)
    ensures var ops := StepOps(step, contract, map[], template);
      ops.Some? && ops.value != [] && ops.value[0].AddOp? && ops.value[0].path == Pointer(ConnectorPath(step.connector))
  {
    var backend := BackendClass(contract, map[]);
    if backend == "http_api" {
      HttpFreshOps(step, contract, template, ShapeOf(contract, "action_shapes", step.action).value);
    } else {
      CommandFreshOps(step, backend, contract, template, ShapeOf(contract, "command_shapes", step.action).value);
    }
  }
}
