/** The bounded YAML loader: a composer that counts depth and nodes while it recurses, and a
    mapping constructor that admits string keys only, each once. */
module YamlComposer {
  import opened Values

  /** A document as the parser's events describe it, tags resolved. */
  datatype Tree =
    | Alias
    | Scalar(anchor: Option<string>, tag: string, text: string)
    | Sequence(anchor: Option<string>, tag: string, items: Items)
    | Map(anchor: Option<string>, tag: string, pairs: Pairs)

  datatype Items = NoItems | Item(head: Tree, rest: Items)

  datatype Pairs = NoPairs | Pair(key: Tree, value: Tree, others: Pairs)

  const STR_TAG := "tag:yaml.org,2002:str"
  const SEQ_TAG := "tag:yaml.org,2002:seq"
  const MAP_TAG := "tag:yaml.org,2002:map"

  const ALLOWED_TAGS: set<string> :=
    {"tag:yaml.org,2002:null", "tag:yaml.org,2002:bool", "tag:yaml.org,2002:int", "tag:yaml.org,2002:float",
     STR_TAG, SEQ_TAG, MAP_TAG}

  // ---------------------------------------------------------------- what the bounds mean

  function Max(a: nat, b: nat): nat { if a >= b then a else b }

  function Nodes(t: Tree): nat {
    match t
    case Sequence(_, _, items) => 1 + ItemNodes(items)
    case Map(_, _, pairs) => 1 + PairNodes(pairs)
    case _ => 1
  }

  function ItemNodes(items: Items): nat {
    match items
    case NoItems => 0
    case Item(head, rest) => Nodes(head) + ItemNodes(rest)
  }

  function PairNodes(pairs: Pairs): nat {
    match pairs
    case NoPairs => 0
    case Pair(key, value, others) => Nodes(key) + Nodes(value) + PairNodes(others)
  }

  function Height(t: Tree): nat {
    match t
    case Sequence(_, _, items) => 1 + ItemHeight(items)
    case Map(_, _, pairs) => 1 + PairHeight(pairs)
    case _ => 1
  }

  function ItemHeight(items: Items): nat {
    match items
    case NoItems => 0
    case Item(head, rest) => Max(Height(head), ItemHeight(rest))
  }

  function PairHeight(pairs: Pairs): nat {
    match pairs
    case NoPairs => 0
    case Pair(key, value, others) => Max(Max(Height(key), Height(value)), PairHeight(others))
  }

  /** No alias anywhere and only allowed tags. */
  predicate Clean(t: Tree) {
    match t
    case Alias => false
    case Scalar(_, tag, _) => tag in ALLOWED_TAGS
    case Sequence(_, tag, items) => tag in ALLOWED_TAGS && ItemsClean(items)
    case Map(_, tag, pairs) => tag in ALLOWED_TAGS && PairsClean(pairs)
  }

  predicate ItemsClean(items: Items) {
    match items
    case NoItems => true
    case Item(head, rest) => Clean(head) && ItemsClean(rest)
  }

  predicate PairsClean(pairs: Pairs) {
    match pairs
    case NoPairs => true
    case Pair(key, value, others) => Clean(key) && Clean(value) && PairsClean(others)
  }

  function OwnAnchor(t: Tree): set<string> {
    if !t.Alias? && t.anchor.Some? then {t.anchor.value} else {}
  }

  function Anchors(t: Tree): set<string> {
    OwnAnchor(t) + match t
      case Sequence(_, _, items) => ItemAnchors(items)
      case Map(_, _, pairs) => PairAnchors(pairs)
      case _ => {}
  }

  function ItemAnchors(items: Items): set<string> {
    match items
    case NoItems => {}
    case Item(head, rest) => Anchors(head) + ItemAnchors(rest)
  }

  function PairAnchors(pairs: Pairs): set<string> {
    match pairs
    case NoPairs => {}
    case Pair(key, value, others) => Anchors(key) + Anchors(value) + PairAnchors(others)
  }

  /** No anchor is defined twice. */
  predicate Unshared(t: Tree) {
    match t
    case Sequence(_, _, items) => OwnAnchor(t) !! ItemAnchors(items) && ItemsUnshared(items)
    case Map(_, _, pairs) => OwnAnchor(t) !! PairAnchors(pairs) && PairsUnshared(pairs)
    case _ => true
  }

  predicate ItemsUnshared(items: Items) {
    match items
    case NoItems => true
    case Item(head, rest) => Unshared(head) && ItemsUnshared(rest) && Anchors(head) !! ItemAnchors(rest)
  }

  predicate PairsUnshared(pairs: Pairs) {
    match pairs
    case NoPairs => true
    case Pair(key, value, others) =>
      && Unshared(key) && Unshared(value) && PairsUnshared(others)
      && Anchors(key) !! Anchors(value) && Anchors(key) + Anchors(value) !! PairAnchors(others)
  }

  // ---------------------------------------------------------------- the composer

  class BoundedLoader {
    const maxDepth: nat
    const maxNodes: nat
    var depth: nat
    var nodes: nat
    var anchors: set<string>

    constructor (maxDepth: nat, maxNodes: nat)
      ensures this.maxDepth == maxDepth && this.maxNodes == maxNodes && depth == 0 && nodes == 0 && anchors == {}
    {
      this.maxDepth, this.maxNodes, depth, nodes, anchors := maxDepth, maxNodes, 0, 0, {};
    }

    /** Compose one node; `false` is the refusal it raises. The depth counter is back where it
        was on every exit, and the document is accepted exactly when it is within the bounds. */
    method ComposeNode(t: Tree) returns (ok: bool)
      modifies this
      ensures depth == old(depth) && nodes >= old(nodes)
      ensures ok <==>
        && Clean(t) && old(depth) + Height(t) <= maxDepth && old(nodes) + Nodes(t) <= maxNodes
        && Unshared(t) && Anchors(t) !! old(anchors)
      ensures ok ==> nodes == old(nodes) + Nodes(t) && anchors == old(anchors) + Anchors(t)
      decreases t
    {
      if t.Alias? {
        return false;
      }
      if depth >= maxDepth {
        return false;
      }
      nodes := nodes + 1;
      if nodes > maxNodes {
        return false;
      }
      depth := depth + 1;
      if t.anchor.Some? {
        if t.anchor.value in anchors {
          depth := depth - 1;
          assert t.anchor.value in Anchors(t);
          return false;
        }
        anchors := anchors + {t.anchor.value};
      }
      match t {
        case Sequence(_, _, items) => ok := ComposeItems(items);
        case Map(_, _, pairs) => ok := ComposePairs(pairs);
        case _ => ok := true;
      }
      depth := depth - 1;
      if ok && t.tag !in ALLOWED_TAGS {
        return false;
      }
    }

    method ComposeItems(items: Items) returns (ok: bool)
      modifies this
      requires nodes <= maxNodes && depth <= maxDepth
      ensures depth == old(depth) && nodes >= old(nodes)
      ensures ok <==>
        && ItemsClean(items) && old(depth) + ItemHeight(items) <= maxDepth && old(nodes) + ItemNodes(items) <= maxNodes
        && ItemsUnshared(items) && ItemAnchors(items) !! old(anchors)
      ensures ok ==> nodes == old(nodes) + ItemNodes(items) && anchors == old(anchors) + ItemAnchors(items)
      decreases items
    {
      var rest := items;
      while rest.Item?
        invariant depth == old(depth) && old(nodes) <= nodes <= maxNodes
        invariant nodes + ItemNodes(rest) == old(nodes) + ItemNodes(items)
        invariant ItemsClean(items) <==> ItemsClean(rest)
        invariant old(depth) + ItemHeight(items) <= maxDepth <==> old(depth) + ItemHeight(rest) <= maxDepth
        invariant anchors + ItemAnchors(rest) == old(anchors) + ItemAnchors(items)
        invariant (ItemsUnshared(items) && ItemAnchors(items) !! old(anchors)
                   <==> ItemsUnshared(rest) && ItemAnchors(rest) !! anchors)
        invariant rest == items || rest < items
        decreases rest
      {
        var accepted := ComposeNode(rest.head);
        if !accepted {
          return false;
        }
        rest := rest.rest;
      }
      ok := true;
    }

    method ComposePairs(pairs: Pairs) returns (ok: bool)
      modifies this
      requires nodes <= maxNodes && depth <= maxDepth
      ensures depth == old(depth) && nodes >= old(nodes)
      ensures ok <==>
        && PairsClean(pairs) && old(depth) + PairHeight(pairs) <= maxDepth && old(nodes) + PairNodes(pairs) <= maxNodes
        && PairsUnshared(pairs) && PairAnchors(pairs) !! old(anchors)
      ensures ok ==> nodes == old(nodes) + PairNodes(pairs) && anchors == old(anchors) + PairAnchors(pairs)
      decreases pairs
    {
      var rest := pairs;
      while rest.Pair?
        invariant depth == old(depth) && old(nodes) <= nodes <= maxNodes
        invariant nodes + PairNodes(rest) == old(nodes) + PairNodes(pairs)
        invariant PairsClean(pairs) <==> PairsClean(rest)
        invariant old(depth) + PairHeight(pairs) <= maxDepth <==> old(depth) + PairHeight(rest) <= maxDepth
        invariant anchors + PairAnchors(rest) == old(anchors) + PairAnchors(pairs)
        invariant (PairsUnshared(pairs) && PairAnchors(pairs) !! old(anchors)
                   <==> PairsUnshared(rest) && PairAnchors(rest) !! anchors)
        invariant rest == pairs || rest < pairs
        decreases rest
      {
        var accepted := ComposeNode(rest.key);
        if accepted {
          accepted := ComposeNode(rest.value);
        }
        if !accepted {
          return false;
        }
        rest := rest.others;
      }
      ok := true;
    }
  }

  // ---------------------------------------------------------------- construction

  /** How a plain scalar becomes a value; `None` is a constructor error. */
  type Resolver = (string, string) -> Option<Value>

  /** A constructor is chosen by tag and checks the kind of node it gets, except that the mapping
      constructor only walks the node's children: a node without any is an empty mapping to it,
      whatever its kind. */
  function Construct(t: Tree, scalar: Resolver): Option<Value>
    decreases t, 1
  {
    match t
    case Alias => None
    case Scalar(_, tag, text) =>
      if tag == SEQ_TAG then None
      else if tag == MAP_TAG then if text == "" then Some(Dict(map[])) else None
      else scalar(tag, text)
    case Sequence(_, tag, items) =>
      if tag == MAP_TAG then if items.NoItems? then Some(Dict(map[])) else None
      else if tag != SEQ_TAG then None
      else (match ConstructItems(items, scalar) case None => None case Some(vs) => Some(List(vs)))
    case Map(_, tag, pairs) =>
      if tag != MAP_TAG then None
      else (match ConstructPairs(pairs, scalar, map[]) case None => None case Some(m) => Some(Dict(m)))
  }

  function ConstructItems(items: Items, scalar: Resolver): Option<seq<Value>>
    decreases items, 1
  {
    match items
    case NoItems => Some([])
    case Item(head, rest) =>
      match Construct(head, scalar)
      case None => None
      case Some(v) => (match ConstructItems(rest, scalar) case None => None case Some(vs) => Some([v] + vs))
  }

  predicate StringKey(key: Tree) {
    key.Scalar? && key.tag == STR_TAG
  }

  /** The mapping built so far, extended by the remaining pairs. */
  function ConstructPairs(pairs: Pairs, scalar: Resolver, built: Mapping): Option<Mapping>
    decreases pairs, 1
  {
    match pairs
    case NoPairs => Some(built)
    case Pair(key, value, others) =>
      if !StringKey(key) || key.text in built then None
      else
        match Construct(value, scalar)
        case None => None
        case Some(v) => ConstructPairs(others, scalar, built[key.text := v])
  }

  /** The mapping constructor as a loop that fills one dictionary. */
  method ConstructMapping(pairs: Pairs, scalar: Resolver) returns (r: Option<Mapping>)
    ensures r == ConstructPairs(pairs, scalar, map[])
  {
    var mapping: Mapping := map[];
    var rest := pairs;
    while rest.Pair?
      invariant ConstructPairs(rest, scalar, mapping) == ConstructPairs(pairs, scalar, map[])
      decreases rest
    {
      if !StringKey(rest.key) || rest.key.text in mapping {
        return None;
      }
      var value := Construct(rest.value, scalar);
      if value.None? {
        return None;
      }
      mapping := mapping[rest.key.text := value.value];
      rest := rest.others;
    }
    r := Some(mapping);
  }

  /** Whether a value of none of the other types is a finite number. */
  type Finite = Value -> bool

  /** Finite JSON data: none of the values JSON has no notation for. */
  predicate ValidJson(v: Value, finite: Finite) {
    match v
    case Other(_) => finite(v)
    case List(items) => forall i :: 0 <= i < |items| ==> ValidJson(items[i], finite)
    case Dict(fields) => forall k :: k in fields ==> ValidJson(fields[k], finite)
    case _ => true
  }

  // ---------------------------------------------------------------- exactly which documents load

  function Keys(pairs: Pairs): set<string> {
    match pairs
    case NoPairs => {}
    case Pair(key, _, others) => (if key.Scalar? then {key.text} else {}) + Keys(others)
  }

  function PairCount(pairs: Pairs): nat {
    match pairs
    case NoPairs => 0
    case Pair(_, _, others) => 1 + PairCount(others)
  }

  /** Every collection has the tag of its kind, or is empty and tagged as a mapping; every mapping
      key is a string and occurs once in its mapping; every other scalar resolves to JSON data. */
  predicate Loadable(t: Tree, scalar: Resolver, finite: Finite)
    decreases t, 1
  {
    match t
    case Alias => false
    case Scalar(_, tag, text) =>
      if tag in {SEQ_TAG, MAP_TAG} then tag == MAP_TAG && text == ""
      else scalar(tag, text).Some? && ValidJson(scalar(tag, text).value, finite)
    case Sequence(_, tag, items) =>
      (tag == MAP_TAG && items.NoItems?) || (tag == SEQ_TAG && ItemsLoadable(items, scalar, finite))
    case Map(_, tag, pairs) => tag == MAP_TAG && PairsLoadable(pairs, scalar, finite)
  }

  predicate ItemsLoadable(items: Items, scalar: Resolver, finite: Finite)
    decreases items, 1
  {
    match items
    case NoItems => true
    case Item(head, rest) => Loadable(head, scalar, finite) && ItemsLoadable(rest, scalar, finite)
  }

  predicate PairsLoadable(pairs: Pairs, scalar: Resolver, finite: Finite)
    decreases pairs, 1
  {
    match pairs
    case NoPairs => true
    case Pair(key, value, others) =>
      StringKey(key) && key.text !in Keys(others) && Loadable(value, scalar, finite) && PairsLoadable(others, scalar, finite)
  }

  lemma {:induction false} LoadsExactly(t: Tree, scalar: Resolver, finite: Finite)
    ensures Loadable(t, scalar, finite) <==> Construct(t, scalar).Some? && ValidJson(Construct(t, scalar).value, finite)
    decreases t, 1
  {
    match t {
      case Sequence(_, _, items) => ItemsLoadExactly(items, scalar, finite);
      case Map(_, _, pairs) =>
        PairsLoadExactly(pairs, scalar, map[], finite);
      case _ =>
    }
  }

  /** What a collection whose tag is not that of its kind gives: nothing, unless it is empty and
      tagged as a mapping. */
  lemma {:induction false} MismatchedTag(t: Tree, scalar: Resolver, finite: Finite)
    requires (t.Sequence? && t.tag != SEQ_TAG) || (t.Map? && t.tag != MAP_TAG)
    ensures var empty := t.Sequence? && t.items.NoItems? && t.tag == MAP_TAG;
      && Construct(t, scalar) == (if empty then Some(Dict(map[])) else None)
      && (Loadable(t, scalar, finite) <==> empty)
  {
  }

  lemma {:induction false} ItemsLoadExactly(items: Items, scalar: Resolver, finite: Finite)
    ensures var vs := ConstructItems(items, scalar);
      ItemsLoadable(items, scalar, finite) <==> vs.Some? && forall i :: 0 <= i < |vs.value| ==> ValidJson(vs.value[i], finite)
    decreases items, 1
  {
    if items.Item? {
      LoadsExactly(items.head, scalar, finite);
      ItemsLoadExactly(items.rest, scalar, finite);
      var v, tail := Construct(items.head, scalar), ConstructItems(items.rest, scalar);
      if v.Some? && tail.Some? {
        var vs := [v.value] + tail.value;
        assert vs[0] == v.value && vs[1..] == tail.value;
        assert forall i :: 0 <= i < |tail.value| ==> tail.value[i] == vs[i + 1];
      }
    }
  }

  predicate AllJson(m: Mapping, finite: Finite) {
    forall k :: k in m ==> ValidJson(m[k], finite)
  }

  lemma {:induction false} AllJsonPut(m: Mapping, k: string, v: Value, finite: Finite)
    requires k !in m
    ensures AllJson(m[k := v], finite) <==> AllJson(m, finite) && ValidJson(v, finite)
  {
    var m' := m[k := v];
    assert m'[k] == v;
    assert forall j :: j in m ==> m'[j] == m[j];
  }

  lemma {:induction false} PairsLoadExactly(pairs: Pairs, scalar: Resolver, built: Mapping, finite: Finite)
    ensures var m := ConstructPairs(pairs, scalar, built);
      PairsLoadable(pairs, scalar, finite) && built.Keys !! Keys(pairs) && AllJson(built, finite) <==> m.Some? && AllJson(m.value, finite)
    decreases pairs, 1
  {
    if pairs.Pair? {
      var key, value, others := pairs.key, pairs.value, pairs.others;
      LoadsExactly(value, scalar, finite);
      if StringKey(key) {
        if key.text in built {
          assert key.text in Keys(pairs);
        } else if Construct(value, scalar).Some? {
          var v := Construct(value, scalar).value;
          var next := built[key.text := v];
          PairsLoadExactly(others, scalar, next, finite);
          AllJsonPut(built, key.text, v, finite);
          assert next.Keys == built.Keys + {key.text};
        }
      }
    }
  }

  lemma {:induction false} PutFresh(m: Mapping, k: string, v: Value)
    requires k !in m
    ensures m[k := v].Keys == m.Keys + {k} && |m[k := v]| == |m| + 1
  {
    assert m[k := v].Keys == m.Keys + {k};
  }

  /** A constructed mapping has one entry per pair: no key was lost or overwritten, and what was
      built first is still there. */
  lemma {:induction false} PairsAllKept(pairs: Pairs, scalar: Resolver, built: Mapping)
    requires ConstructPairs(pairs, scalar, built).Some?
    ensures var m := ConstructPairs(pairs, scalar, built).value;
      && |m| == |built| + PairCount(pairs) && built.Keys <= m.Keys
      && (forall k :: k in built ==> m[k] == built[k])
      && (pairs.Pair? ==> pairs.key.text in m && Construct(pairs.value, scalar) == Some(m[pairs.key.text]))
  {
    if pairs.Pair? {
      var key, v := pairs.key.text, Construct(pairs.value, scalar).value;
      PutFresh(built, key, v);
      PairsAllKept(pairs.others, scalar, built[key := v]);
    }
  }

  // ---------------------------------------------------------------- what loading guarantees

  /** A value nested at most `h` deep. */
  predicate Within(v: Value, h: nat)
    decreases v
  {
    h >= 1 && match v
      case List(items) => forall i :: 0 <= i < |items| ==> Within(items[i], h - 1)
      case Dict(fields) => forall k :: k in fields ==> Within(fields[k], h - 1)
      case _ => true
  }

  lemma {:induction false} WithinGrows(v: Value, h: nat, h': nat)
    requires Within(v, h) && h <= h'
    ensures Within(v, h')
    decreases v
  {
    match v {
      case List(items) =>
        forall i | 0 <= i < |items| ensures Within(items[i], h' - 1) { WithinGrows(items[i], h - 1, h' - 1); }
      case Dict(fields) =>
        forall k | k in fields ensures Within(fields[k], h' - 1) { WithinGrows(fields[k], h - 1, h' - 1); }
      case _ =>
    }
  }

  /** Scalars resolve to values without parts. */
  ghost predicate Flat(scalar: Resolver) {
    forall tag, text :: scalar(tag, text).Some? ==> !scalar(tag, text).value.List? && !scalar(tag, text).value.Dict?
  }

  /** What the composer bounded stays bounded: the loaded value nests no deeper than the
      document, so recursion over an accepted document's data never exceeds the depth limit. */
  lemma {:induction false} LoadedWithin(t: Tree, scalar: Resolver)
    requires Flat(scalar) && Construct(t, scalar).Some?
    ensures Within(Construct(t, scalar).value, Height(t))
    decreases t, 1
  {
    match t {
      case Sequence(_, tag, items) => if tag == SEQ_TAG { ItemsWithin(items, scalar, ItemHeight(items)); }
      case Map(_, _, pairs) => PairsWithin(pairs, scalar, map[], PairHeight(pairs));
      case _ =>
    }
  }

  lemma {:induction false} ItemsWithin(items: Items, scalar: Resolver, h: nat)
    requires Flat(scalar) && ConstructItems(items, scalar).Some? && ItemHeight(items) <= h
    ensures forall v :: v in ConstructItems(items, scalar).value ==> Within(v, h)
    decreases items, 1
  {
    if items.Item? {
      LoadedWithin(items.head, scalar);
      WithinGrows(Construct(items.head, scalar).value, Height(items.head), h);
      ItemsWithin(items.rest, scalar, h);
    }
  }

  lemma {:induction false} PairsWithin(pairs: Pairs, scalar: Resolver, built: Mapping, h: nat)
    requires Flat(scalar) && ConstructPairs(pairs, scalar, built).Some? && PairHeight(pairs) <= h
    requires forall k :: k in built ==> Within(built[k], h)
    ensures var m := ConstructPairs(pairs, scalar, built).value;
      forall k :: k in m ==> Within(m[k], h)
    decreases pairs, 1
  {
    if pairs.Pair? {
      var v := Construct(pairs.value, scalar).value;
      LoadedWithin(pairs.value, scalar);
      WithinGrows(v, Height(pairs.value), h);
      PairsWithin(pairs.others, scalar, built[pairs.key.text := v], h);
    }
  }

  /** Load one document, or none when the text is empty. */
  method Load(document: Option<Tree>, size: nat, maxBytes: int, maxDepth: int, maxNodes: int, scalar: Resolver,
              finite: Finite)
    returns (r: Option<Value>)
    ensures r.Some? <==>
      && maxBytes >= 1 && maxDepth >= 1 && maxNodes >= 1 && size <= maxBytes
      && (document.Some? ==>
            && Clean(document.value) && Unshared(document.value) && Height(document.value) <= maxDepth && Nodes(document.value) <= maxNodes
            && Loadable(document.value, scalar, finite))
    ensures r.Some? ==> ValidJson(r.value, finite) && (Flat(scalar) ==> Within(r.value, maxDepth))
  {
    if maxBytes < 1 || maxDepth < 1 || maxNodes < 1 || size > maxBytes {
      return None;
    }
    if document.None? {
      return Some(Null);
    }
    var t := document.value;
    var loader := new BoundedLoader(maxDepth, maxNodes);
    var composed := loader.ComposeNode(t);
    if !composed {
      return None;
    }
    LoadsExactly(t, scalar, finite);
    r := Construct(t, scalar);
    if r.Some? && !ValidJson(r.value, finite) {
      return None;
    }
    if r.Some? && Flat(scalar) {
      LoadedWithin(t, scalar);
      WithinGrows(r.value, Height(t), maxDepth);
    }
  }
}
