/** JSON documents, pointers (RFC 6901) and the "add" operation (section 4.1 of RFC 6902). */
module JsonPatch {
  import opened Values

  /** Split at every slash. */
  function Split(s: string): (parts: seq<string>)
    ensures |parts| >= 1
  {
    if s == "" then [""]
    else
      var rest := Split(s[1..]);
      if s[0] == '/' then [""] + rest else [[s[0]] + rest[0]] + rest[1..]
  }

  function Unescape(t: string): string {
    if t == "" then ""
    else if |t| >= 2 && t[0] == '~' && t[1] == '1' then "/" + Unescape(t[2..])
    else if |t| >= 2 && t[0] == '~' && t[1] == '0' then "~" + Unescape(t[2..])
    else [t[0]] + Unescape(t[1..])
  }

  function UnescapeAll(parts: seq<string>): seq<string> {
    if parts == [] then [] else [Unescape(parts[0])] + UnescapeAll(parts[1..])
  }

  /** The reference tokens of a pointer that starts with a slash. */
  function Tokens(pointer: string): Option<seq<string>> {
    if pointer == "" then Some([])
    else if pointer[0] != '/' then None
    else Some(UnescapeAll(Split(pointer[1..])))
  }

  /** Add a value where the tokens lead: a new or replaced member, an appended element, or the
      whole document. `None` when there is no such place. */
  function AddAt(doc: Value, tokens: seq<string>, value: Value): Option<Value>
    decreases |tokens|
  {
    if tokens == [] then Some(value)
    else if |tokens| == 1 then
      if doc.Dict? then Some(Dict(doc.fields[tokens[0] := value]))
      else if doc.List? && tokens[0] == "-" then Some(List(doc.items + [value]))
      else None
    else if doc.Dict? && tokens[0] in doc.fields then
      match AddAt(doc.fields[tokens[0]], tokens[1..], value)
      case None => None
      case Some(inner) => Some(Dict(doc.fields[tokens[0] := inner]))
    else None
  }

  function Add(doc: Value, pointer: string, value: Value): Option<Value> {
    match Tokens(pointer)
    case None => None
    case Some(tokens) => AddAt(doc, tokens, value)
  }

  // ---------------------------------------------------------------- names that pass as tokens

  predicate EscapeAt(t: string, i: nat) {
    i + 1 < |t| && t[i] == '~' && (t[i + 1] == '0' || t[i + 1] == '1')
  }

  predicate HasEscape(t: string) {
    exists i :: 0 <= i < |t| && EscapeAt(t, i)
  }

  /** A name that a pointer can hold without escaping. */
  predicate PlainName(name: string) {
    '/' !in name && !HasEscape(name)
  }

  lemma {:induction false} SplitWhole(name: string)
    ensures |Split(name)| == 1 <==> '/' !in name
    ensures '/' !in name ==> Split(name) == [name]
  {
    if name != "" {
      assert name == [name[0]] + name[1..];
      SplitWhole(name[1..]);
    }
  }

  lemma {:induction false} SplitJoin(name: string, rest: string)
    ensures Split(name + "/" + rest) == Split(name) + Split(rest)
  {
    var s := name + "/" + rest;
    if name == "" {
      assert s[1..] == rest;
    } else {
      assert s[0] == name[0] && s[1..] == name[1..] + "/" + rest;
      SplitJoin(name[1..], rest);
    }
  }

  /** Unescaping leaves a text alone exactly when it holds no escape; otherwise it shortens it. */
  lemma {:induction false} UnescapeExact(t: string)
    ensures |Unescape(t)| <= |t|
    ensures HasEscape(t) <==> |Unescape(t)| < |t|
    ensures !HasEscape(t) ==> Unescape(t) == t
  {
    if t == "" {
    } else if EscapeAt(t, 0) {
      UnescapeExact(t[2..]);
    } else {
      UnescapeExact(t[1..]);
      assert t == [t[0]] + t[1..];
      if HasEscape(t[1..]) {
        var i :| 0 <= i < |t[1..]| && EscapeAt(t[1..], i);
        assert EscapeAt(t, i + 1);
      }
      if HasEscape(t) {
        var i :| 0 <= i < |t| && EscapeAt(t, i);
        assert EscapeAt(t[1..], i - 1);
      }
    }
  }

  lemma {:induction false} UnescapeAllExact(parts: seq<string>)
    ensures |UnescapeAll(parts)| == |parts|
    ensures UnescapeAll(parts) == parts <==> forall i :: 0 <= i < |parts| ==> !HasEscape(parts[i])
  {
    if parts != [] {
      UnescapeExact(parts[0]);
      UnescapeAllExact(parts[1..]);
      assert parts == [parts[0]] + parts[1..];
      var all := UnescapeAll(parts);
      assert all[0] == Unescape(parts[0]) && all[1..] == UnescapeAll(parts[1..]);
    }
  }

  /** The pointer of a path, as the patch builder writes it: the names as they are. */
  function Pointer(names: seq<string>): string {
    if names == [] then "" else "/" + names[0] + Pointer(names[1..])
  }

  lemma {:induction false} PointerTail(names: seq<string>)
    requires names != []
    ensures Pointer(names) != "" && Pointer(names)[0] == '/'
    ensures |names| == 1 ==> Pointer(names)[1..] == names[0]
    ensures |names| > 1 ==> Pointer(names)[1..] == names[0] + "/" + Pointer(names[1..])[1..]
  {
    if |names| == 1 {
      assert Pointer(names[1..]) == "";
      assert Pointer(names) == "/" + names[0];
    } else {
      PointerTail(names[1..]);
      var p := Pointer(names[1..]);
      assert p == "/" + p[1..];
      assert Pointer(names) == "/" + names[0] + p;
      assert "/" + names[0] + p == "/" + (names[0] + "/" + p[1..]);
    }
  }

  ghost predicate NoSlash(names: seq<string>) {
    forall i :: 0 <= i < |names| ==> '/' !in names[i]
  }

  lemma {:induction false} SplitPointer(names: seq<string>)
    requires names != []
    ensures var parts := Split(Pointer(names)[1..]);
            |parts| >= |names| && (|parts| == |names| <==> NoSlash(names)) && (NoSlash(names) ==> parts == names)
  {
    PointerTail(names);
    SplitWhole(names[0]);
    assert names == [names[0]] + names[1..];
    if |names| > 1 {
      SplitPointer(names[1..]);
      SplitJoin(names[0], Pointer(names[1..])[1..]);
      assert NoSlash(names) <==> '/' !in names[0] && NoSlash(names[1..]);
    }
  }

  /** A pointer means the names it was built from exactly when none of them holds a slash or an
      escape. */
  lemma {:induction false} TokensOfPointer(names: seq<string>)
    requires names != []
    ensures Tokens(Pointer(names)) == Some(names) <==> forall i :: 0 <= i < |names| ==> PlainName(names[i])
  {
    PointerTail(names);
    SplitPointer(names);
    var parts := Split(Pointer(names)[1..]);
    UnescapeAllExact(parts);
  }
}
