/** Internal-action plugins: the strict loader the runtime uses, and the bounded diagnostic
    snapshot that mirrors it without raising. Registrars are deterministic: both see the same
    entry points behave the same way. */
module PluginRegistry {
  import opened Values

  const INVENTORY_LIMIT := 64
  const ACTION_LIMIT := 64

  /** What an entry point does when it is loaded and its registrar is called. `Registers` is a
      mapping whose iteration yields `names` and then, if `faults`, raises; with
      `mergeFaults` merging it into the handlers raises, because its keys or a value cannot be read
      then. */
  datatype Behaviour =
    | LoadRaises
    | NotCallable
    | ContractInvalid
    | CallRaises
    | NotMapping
    | Registers(names: seq<string>, faults: bool, mergeFaults: bool)

  datatype EntryPoint = EntryPoint(nameReadable: bool, behaviour: Behaviour)

  datatype Record = Passed(actions: set<string>) | Failed(code: string)

  const BUILTINS: set<string> := {"record_execution_checkpoint", "record_rollback_marker"}

  function Names(b: Behaviour): set<string> {
    if b.Registers? then set n | n in b.names else {}
  }

  // ---------------------------------------------------------------- the strict loader

  /** One entry point, strictly: the names registered after it, or `None` when it raises. A
      registrar that is not callable or returns no mapping is passed over. */
  function StrictStep(ep: EntryPoint, known: set<string>): Option<set<string>> {
    match ep.behaviour
    case LoadRaises => None
    case NotCallable => Some(known)
    case ContractInvalid => None
    case CallRaises => None
    case NotMapping => Some(known)
    case Registers(_, faults, mergeFaults) =>
      if faults || Names(ep.behaviour) * known != {} || mergeFaults then None
      else Some(known + Names(ep.behaviour))
  }

  function StrictFrom(points: seq<EntryPoint>, known: set<string>): Option<set<string>> {
    if points == [] then Some(known)
    else
      match StrictStep(points[0], known)
      case None => None
      case Some(more) => StrictFrom(points[1..], more)
  }

  /** The strict load; `None` for the points when enumerating them raises. */
  function Strict(points: Option<seq<EntryPoint>>): Option<set<string>> {
    if points.None? then None else StrictFrom(points.value, BUILTINS)
  }

  // ---------------------------------------------------------------- the diagnostic mirror

  /** One entry point, inspected; nothing is registered unless it passes. */
  function Inspect(ep: EntryPoint, known: set<string>): Record {
    if !ep.nameReadable then Failed("entry_point_name_failed")
    else
      match ep.behaviour
      case LoadRaises => Failed("entry_point_load_failed")
      case NotCallable => Failed("registrar_not_callable")
      case ContractInvalid => Failed("registrar_contract_invalid")
      case CallRaises => Failed("registrar_call_failed")
      case NotMapping => Failed("registrar_returned_non_mapping")
      case Registers(names, faults, _) =>
        if |names| > ACTION_LIMIT then Failed("registered_action_limit_exceeded")
        else if faults then Failed("registrar_mapping_unreadable")
        else if Names(ep.behaviour) * known != {} then Failed("action_collision")
        else Passed(Names(ep.behaviour))
  }

  function KnownAfter(r: Record, known: set<string>): set<string> {
    if r.Passed? then known + r.actions else known
  }

  /** Every entry point's record, in order. */
  function Records(points: seq<EntryPoint>, known: set<string>): seq<Record> {
    if points == [] then []
    else
      var r := Inspect(points[0], known);
      [r] + Records(points[1..], KnownAfter(r, known))
  }

  /** The records a snapshot shows: all of them, or a window closed by an overflow record. */
  function Shown(records: seq<Record>): seq<Record> {
    if |records| > INVENTORY_LIMIT
    then records[..INVENTORY_LIMIT - 1] + [Failed("entry_point_inventory_limit_exceeded")]
    else records
  }

  function Snapshot(points: Option<seq<EntryPoint>>): seq<Record> {
    if points.None? then [Failed("entry_point_enumeration_failed")]
    else Shown(Records(points.value, BUILTINS))
  }

  lemma {:induction false} RecordsLength(points: seq<EntryPoint>, known: set<string>)
    ensures |Records(points, known)| == |points|
  {
    if points != [] { RecordsLength(points[1..], KnownAfter(Inspect(points[0], known), known)); }
  }

  lemma {:induction false} RecordsSplit(points: seq<EntryPoint>, known: set<string>, i: nat)
    requires i < |points|
    ensures |Records(points, known)| == |points|
    ensures Records(points, known)[i] == Inspect(points[i], KnownThrough(points, known, i))
    ensures KnownThrough(points, known, i + 1)
         == KnownAfter(Records(points, known)[i], KnownThrough(points, known, i))
  {
    RecordsLength(points, known);
    var next := KnownAfter(Inspect(points[0], known), known);
    if i > 0 { RecordsSplit(points[1..], next, i - 1); }
  }

  /** The names known after the first `n` entry points were inspected. */
  function KnownThrough(points: seq<EntryPoint>, known: set<string>, n: nat): set<string>
    requires n <= |points|
  {
    if n == 0 then known
    else KnownThrough(points[1..], KnownAfter(Inspect(points[0], known), known), n - 1)
  }

  /** The snapshot as a loop over all entry points that keeps a bounded window of records. */
  method TakeSnapshot(points: Option<seq<EntryPoint>>) returns (diagnostics: seq<Record>)
    ensures diagnostics == Snapshot(points)
    ensures |diagnostics| <= INVENTORY_LIMIT
  {
    if points.None? {
      return [Failed("entry_point_enumeration_failed")];
    }
    var eps := points.value;
    ghost var all := Records(eps, BUILTINS);
    RecordsLength(eps, BUILTINS);
    diagnostics := [];
    var known := BUILTINS;
    var overflow := |eps| > INVENTORY_LIMIT;
    var visible := if overflow then INVENTORY_LIMIT - 1 else INVENTORY_LIMIT;
    for i := 0 to |eps|
      invariant known == KnownThrough(eps, BUILTINS, i)
      invariant diagnostics == all[..if i < visible then i else visible]
    {
      RecordsSplit(eps, BUILTINS, i);
      var record := Inspect(eps[i], known);
      if i < visible {
        diagnostics := diagnostics + [record];
      }
      known := KnownAfter(record, known);
    }
    if overflow {
      diagnostics := diagnostics + [Failed("entry_point_inventory_limit_exceeded")];
    }
  }

  /** The strict load as the loop that fills the handler table; `extra` are handlers added last. */
  method LoadHandlers(points: Option<seq<EntryPoint>>, extra: set<string>) returns (handlers: Option<set<string>>)
    ensures handlers == match Strict(points)
      case None => None
      case Some(known) => if extra * known != {} then None else Some(known + extra)
  {
    if points.None? {
      return None;
    }
    var known := BUILTINS;
    var eps := points.value;
    for i := 0 to |eps|
      invariant StrictFrom(eps[i..], known) == StrictFrom(eps, BUILTINS)
    {
      var step := StrictStep(eps[i], known);
      assert eps[i..][1..] == eps[i + 1..];
      if step.None? {
        return None;
      }
      known := step.value;
    }
    if extra * known != {} {
      return None;
    }
    handlers := Some(known + extra);
  }

  // ---------------------------------------------------------------- agreement

  ghost predicate AllPassed(records: seq<Record>) {
    forall i :: 0 <= i < |records| ==> records[i].Passed?
  }

  /** An entry point the diagnostic has nothing against besides a name collision. */
  predicate Regular(ep: EntryPoint) {
    ep.nameReadable && ep.behaviour.Registers? && !ep.behaviour.faults && |ep.behaviour.names| <= ACTION_LIMIT
  }

  /** Names registered by passed records. */
  function ActionsOf(records: seq<Record>): set<string> {
    if records == [] then {} else (if records[0].Passed? then records[0].actions else {}) + ActionsOf(records[1..])
  }

  /** An entry point whose mapping cannot be merged. The snapshot never merges it. */
  predicate HidesFault(ep: EntryPoint) {
    ep.behaviour.Registers? && ep.behaviour.mergeFaults
  }

  ghost predicate Mergeable(points: seq<EntryPoint>) {
    forall i :: 0 <= i < |points| ==> !HidesFault(points[i])
  }

  /** The names of regular entry points that do not collide, registered in order. */
  function Merged(points: seq<EntryPoint>, known: set<string>): Option<set<string>> {
    if points == [] then Some(known)
    else if !Regular(points[0]) || Names(points[0].behaviour) * known != {} then None
    else Merged(points[1..], known + Names(points[0].behaviour))
  }

  ghost predicate AllRegular(points: seq<EntryPoint>) {
    forall i :: 0 <= i < |points| ==> Regular(points[i])
  }

  lemma {:induction false} RecordsMerge(points: seq<EntryPoint>, known: set<string>)
    ensures AllPassed(Records(points, known)) <==> Merged(points, known).Some?
    ensures AllPassed(Records(points, known)) ==> Merged(points, known) == Some(known + ActionsOf(Records(points, known)))
  {
    if points == [] {
      assert known + ActionsOf([]) == known;
    } else {
      var r := Inspect(points[0], known);
      var next := KnownAfter(r, known);
      RecordsMerge(points[1..], next);
      var rs, tail := Records(points, known), Records(points[1..], next);
      assert rs[0] == r && rs[1..] == tail;
      assert AllPassed(rs) <==> r.Passed? && AllPassed(tail) by {
        assert forall i :: 0 <= i < |tail| ==> tail[i] == rs[i + 1];
      }
      if r.Passed? {
        assert (known + r.actions) + ActionsOf(tail) == known + (r.actions + ActionsOf(tail));
      }
    }
  }

  lemma {:induction false} StrictMerges(points: seq<EntryPoint>, known: set<string>)
    ensures Merged(points, known).Some? ==>
      StrictFrom(points, known) == if Mergeable(points) then Merged(points, known) else None
    ensures StrictFrom(points, known).Some? && AllRegular(points) ==> Merged(points, known).Some?
    ensures Merged(points, known).Some? ==> AllRegular(points)
  {
    if points != [] {
      assert points == [points[0]] + points[1..];
      StrictMerges(points[1..], known + Names(points[0].behaviour));
      assert Mergeable(points) <==> !HidesFault(points[0]) && Mergeable(points[1..]);
      assert AllRegular(points) <==> Regular(points[0]) && AllRegular(points[1..]);
    }
  }

  /** The mirror and the strict loader: when every shown record passed, the strict load registers
      the built-in names and exactly those the records show if every registered mapping can be
      merged, and fails if one cannot. Conversely a strict load that succeeds over regular entry points
      within the window has only passed records. */
  lemma {:induction false} SnapshotMirrorsStrictLoad(points: Option<seq<EntryPoint>>)
    ensures AllPassed(Snapshot(points)) ==>
      && points.Some? && |points.value| <= INVENTORY_LIMIT && AllRegular(points.value)
      && Strict(points) == if Mergeable(points.value) then Some(BUILTINS + ActionsOf(Snapshot(points))) else None
    ensures (points.Some? && Strict(points).Some? && |points.value| <= INVENTORY_LIMIT && AllRegular(points.value)
             ==> AllPassed(Snapshot(points)))
  {
    if points.Some? {
      RecordsLength(points.value, BUILTINS);
      RecordsMerge(points.value, BUILTINS);
      StrictMerges(points.value, BUILTINS);
      var shown := Snapshot(points);
      if |points.value| > INVENTORY_LIMIT {
        assert shown[INVENTORY_LIMIT - 1].Failed?;
      }
    } else {
      assert Snapshot(points)[0].Failed?;
    }
  }

  /** When the strict load raises, a shown record says so, wherever the culprit is, except in
      exactly one case: everything passed and a registered mapping cannot be merged. */
  lemma {:induction false} StrictFailureIsShown(points: Option<seq<EntryPoint>>)
    requires Strict(points).None?
    ensures (!(exists i :: 0 <= i < |Snapshot(points)| && Snapshot(points)[i].Failed?) <==>
      && points.Some? && |points.value| <= INVENTORY_LIMIT
      && Merged(points.value, BUILTINS).Some? && !Mergeable(points.value))
    ensures |Snapshot(points)| <= INVENTORY_LIMIT
  {
    SnapshotMirrorsStrictLoad(points);
    if points.Some? {
      RecordsLength(points.value, BUILTINS);
      RecordsMerge(points.value, BUILTINS);
      var shown := Snapshot(points);
      if |points.value| > INVENTORY_LIMIT {
        assert shown[INVENTORY_LIMIT - 1].Failed?;
      }
      assert AllPassed(shown) <==> !exists i :: 0 <= i < |shown| && shown[i].Failed?;
    } else {
      assert Snapshot(points)[0].Failed?;
    }
  }

  /** One such registrar, with an unreadable value: the snapshot passes it and the strict load raises. */
  lemma {:induction false} UnreadableValuePasses()
    ensures var points := Some([EntryPoint(true, Registers(["x"], false, true))]);
      AllPassed(Snapshot(points)) && Strict(points).None?
  {
    var ep := EntryPoint(true, Registers(["x"], false, true));
    assert "x" !in BUILTINS;
    assert Names(ep.behaviour) == {"x"};
    assert {"x"} * BUILTINS == {};
    assert [ep][1..] == [];
    assert Merged([ep], BUILTINS).Some?;
    assert HidesFault([ep][0]);
    RecordsMerge([ep], BUILTINS);
    StrictMerges([ep], BUILTINS);
    RecordsLength([ep], BUILTINS);
  }
}
