/** The path lookup and merge of JsonUtils over an abstract JSON tree. Parsing
    and serialisation belong to the JSON library: a document arrives already
    parsed (None when the parser rejects it) and a merge result is returned as
    a tree. */
module JsonUtils {
  import opened Common

  datatype Json =
    | JNull
    | JBool(b: bool)
    | JNumber(text: string)     // the text asText prints for the parsed number
    | JString(s: string)
    | JArray(items: seq<Json>)
    | JObject(fields: map<string, Json>)

  datatype JsonError = ParseFailure | MergeFailure

  /** JsonNode.get(fieldName): a field of an object node; every other kind of
      node has no named children. */
  function Get(node: Json, key: string): (r: Option<Json>)
    ensures r.Some? <==> node.JObject? && key in node.fields
    ensures r.Some? ==> r.value == node.fields[key]
  {
    if node.JObject? && key in node.fields then Some(node.fields[key]) else None
  }

  /** JsonNode.asText(): scalars give their text, containers the empty string. */
  function AsText(node: Json): (r: string)
    ensures node.JString? ==> r == node.s
    ensures node.JNumber? ==> r == node.text
    ensures node.JNull? ==> r == "null"
    ensures node.JBool? ==> r == (if node.b then "true" else "false")
    ensures node.JArray? || node.JObject? ==> r == ""
  {
    match node
    case JNull => "null"
    case JBool(b) => if b then "true" else "false"
    case JNumber(t) => t
    case JString(s) => s
    case JArray(_) => ""
    case JObject(_) => ""
  }

  // ---------------------------------------------------------- String.split

  /** Every piece of s between dots, including empty ones. */
  function RawSplit(s: string): (parts: seq<string>)
    ensures |parts| > 0
  {
    if s == [] then [[]]
    else
      var rest := RawSplit(s[1..]);
      if s[0] == '.' then [[]] + rest else [[s[0]] + rest[0]] + rest[1..]
  }

  /** Drops empty strings from the end, as String.split does with limit 0. */
  function DropTrailingEmpty(parts: seq<string>): (r: seq<string>) {
    if parts == [] then []
    else if parts[|parts| - 1] == [] then DropTrailingEmpty(parts[..|parts| - 1])
    else parts
  }

  /** path.split("\\."): without a dot the whole input is the only piece;
      otherwise the pieces less the trailing empty ones. */
  function Split(s: string): (r: seq<string>)
    ensures '.' !in s ==> r == [s]
    ensures '.' in s ==> r <= RawSplit(s)
    ensures forall i :: 0 <= i < |r| ==> '.' !in r[i]
  {
    RawSplitNoDots(s);
    DropTrailingEmptyShape(RawSplit(s));
    if '.' !in s then [s] else DropTrailingEmpty(RawSplit(s))
  }

  /** Joins pieces with single dots (String.join(".", parts)). */
  function Join(parts: seq<string>): (r: string)
    requires |parts| > 0
  {
    if |parts| == 1 then parts[0] else parts[0] + "." + Join(parts[1..])
  }

  /** Splitting at every dot loses nothing: rejoining gives the input back. */
  lemma {:induction false} RawSplitJoin(s: string)
    ensures Join(RawSplit(s)) == s
  {
    if s != [] {
      var rest := RawSplit(s[1..]);
      RawSplitJoin(s[1..]);
      if s[0] == '.' {
        assert RawSplit(s) == [[]] + rest;
        assert Join(RawSplit(s)) == "" + "." + Join(rest);
        assert s == "." + s[1..];
      } else {
        var parts := RawSplit(s);
        assert parts == [[s[0]] + rest[0]] + rest[1..];
        if |rest| == 1 {
          assert Join(parts) == [s[0]] + rest[0];
        } else {
          assert parts[1..] == rest[1..];
          assert Join(parts) == [s[0]] + rest[0] + "." + Join(rest[1..]);
          assert Join(rest) == rest[0] + "." + Join(rest[1..]);
        }
        assert s == [s[0]] + s[1..];
      }
    }
  }

  /** No piece of the dot-separated split holds a dot. */
  lemma {:induction false} RawSplitNoDots(s: string)
    ensures forall i :: 0 <= i < |RawSplit(s)| ==> '.' !in RawSplit(s)[i]
  {
    if s != [] && s[0] != '.' {
      var rest := RawSplit(s[1..]);
      RawSplitNoDots(s[1..]);
      var parts := RawSplit(s);
      assert parts == [[s[0]] + rest[0]] + rest[1..];
      forall i | 0 <= i < |parts| ensures '.' !in parts[i] {
        if i > 0 { assert parts[i] == rest[i]; }
      }
    } else if s != [] {
      RawSplitNoDots(s[1..]);
      assert RawSplit(s) == [[]] + RawSplit(s[1..]);
    }
  }

  /** DropTrailingEmpty keeps a prefix, removes only empty pieces, and leaves
      no empty piece at the end. */
  lemma {:induction false} DropTrailingEmptyShape(parts: seq<string>)
    ensures var kept := DropTrailingEmpty(parts);
      && kept <= parts
      && (forall i :: |kept| <= i < |parts| ==> parts[i] == [])
      && (kept != [] ==> kept[|kept| - 1] != [])
  {
    if parts != [] && parts[|parts| - 1] == [] {
      DropTrailingEmptyShape(parts[..|parts| - 1]);
    }
  }

  /** A dotted path loses only empty pieces at its end: of the dot-separated
      pieces, those String.split drops are all empty, and the last one it
      keeps is not. */
  lemma SplitShape(s: string)
    requires '.' in s
    ensures forall i :: |Split(s)| <= i < |RawSplit(s)| ==> RawSplit(s)[i] == []
    ensures Split(s) != [] ==> Split(s)[|Split(s)| - 1] != []
  {
    DropTrailingEmptyShape(RawSplit(s));
  }

  // ------------------------------------------------------- getValueByPath

  /** The node reached by following the segments from a node, or None once a
      segment is missing. */
  function Walk(node: Option<Json>, segments: seq<string>): (r: Option<Json>)
    ensures segments == [] ==> r == node
    ensures node.None? ==> r.None?
    decreases segments
  {
    if segments == [] then node
    else if node.None? then None
    else Walk(Get(node.value, segments[0]), segments[1..])
  }

  /** Walking a concatenated path is walking its halves one after the other. */
  lemma {:induction false} WalkAppend(node: Option<Json>, p: seq<string>, q: seq<string>)
    ensures Walk(node, p + q) == Walk(Walk(node, p), q)
    decreases p
  {
    if p == [] {
      assert p + q == q;
    } else if node.None? {
      WalkNone(q);
    } else {
      assert (p + q)[1..] == p[1..] + q;
      WalkAppend(Get(node.value, p[0]), p[1..], q);
    }
  }

  /** Nothing is found below a missing node. */
  lemma {:induction false} WalkNone(q: seq<string>)
    ensures Walk(None, q) == None
  {
  }

  /** The text the lookup reports: the node's text, or null when it is missing. */
  function ValueByPath(root: Json, path: string): (r: Option<string>)
    ensures r.Some? <==> Walk(Some(root), Split(path)).Some?
    ensures r.Some? ==> r.value == AsText(Walk(Some(root), Split(path)).value)
  {
    var reached := Walk(Some(root), Split(path));
    if reached.Some? then Some(AsText(reached.value)) else None
  }

  /** Once a prefix of the segments leads nowhere the lookup gives null. */
  lemma MissingSegmentGivesNull(root: Json, path: string, k: nat)
    requires k <= |Split(path)|
    requires Walk(Some(root), Split(path)[..k]) == None
    ensures ValueByPath(root, path) == None
  {
    var segs := Split(path);
    assert segs == segs[..k] + segs[k..];
    WalkAppend(Some(root), segs[..k], segs[k..]);
    WalkNone(segs[k..]);
  }

  /** A path without dots is a direct field lookup on the root. */
  lemma SingleSegmentIsDirectLookup(root: Json, path: string)
    requires '.' !in path
    ensures ValueByPath(root, path) ==
      (if root.JObject? && path in root.fields then Some(AsText(root.fields[path])) else None)
  {
    assert Split(path) == [path];
    assert Walk(Some(root), [path]) == Walk(Get(root, path), []);
  }

  /** A dotted path a.b is the lookup of b in the node a names. */
  lemma TwoSegments(root: Json, a: string, b: string)
    requires b != [] && '.' !in a && '.' !in b
    ensures ValueByPath(root, a + "." + b) ==
      (var first := Get(root, a);
       if first.Some? then ValueByPath(first.value, b) else None)
  {
    var s := a + "." + b;
    assert s[|a|] == '.';
    assert RawSplit(a + "." + b) == [a, b] by { RawSplitOfTwo(a, b); }
    assert Split(s) == [a, b];
    assert Walk(Some(root), [a, b]) == Walk(Get(root, a), [b]);
    var first := Get(root, a);
    if first.Some? {
      assert Split(b) == [b];
      assert Walk(Some(first.value), [b]) == Walk(Get(first.value, b), []);
      assert Walk(first, [b]) == Walk(Get(first.value, b), [b][1..]);
    }
  }

  lemma {:induction false} RawSplitOfTwo(a: string, b: string)
    requires '.' !in a && '.' !in b
    ensures RawSplit(a + "." + b) == [a, b]
  {
    if a == [] {
      assert a + "." + b == "." + b;
      assert ("." + b)[1..] == b;
      RawSplitNoDot(b);
    } else {
      RawSplitOfTwo(a[1..], b);
      assert (a + "." + b)[1..] == a[1..] + "." + b;
      assert [a[0]] + a[1..] == a;
    }
  }

  lemma {:induction false} RawSplitNoDot(s: string)
    requires '.' !in s
    ensures RawSplit(s) == [s]
  {
    if s != [] {
      RawSplitNoDot(s[1..]);
      assert [s[0]] + s[1..] == s;
    }
  }

  /** getValueByPath: parse, split the path on dots, step through the
      segments and stop with null at the first missing one. */
  method GetValueByPath(document: Option<Json>, path: string) returns (r: Result<Option<string>, JsonError>)
    ensures document.None? ==> r == Err(ParseFailure)
    ensures document.Some? ==> r == Ok(ValueByPath(document.value, path))
  {
    if document.None? {
      return Err(ParseFailure);
    }
    var parts := Split(path);
    var current := Some(document.value);
    var i := 0;
    while i < |parts|
      invariant 0 <= i <= |parts|
      invariant Walk(Some(document.value), parts) == Walk(current, parts[i..])
    {
      if current.None? {
        return Ok(None);
      }
      assert parts[i..][1..] == parts[i + 1..];
      current := Get(current.value, parts[i]);
      i := i + 1;
    }
    return Ok(if current.Some? then Some(AsText(current.value)) else None);
  }

  // ------------------------------------------------------------ mergeJson

  /** mergeJson: both documents must read as JSON objects; the second's
      entries are put over the first's, one level deep. */
  function MergeJson(first: Option<Json>, second: Option<Json>): (r: Result<Json, JsonError>)
    ensures r.Ok? <==> first.Some? && first.value.JObject? && second.Some? && second.value.JObject?
    ensures r.Ok? ==> r.value.JObject?
    ensures r.Ok? ==> r.value.fields.Keys == first.value.fields.Keys + second.value.fields.Keys
    ensures r.Ok? ==> forall k :: k in second.value.fields ==> r.value.fields[k] == second.value.fields[k]
    ensures r.Ok? ==> forall k :: k in first.value.fields && k !in second.value.fields ==>
      r.value.fields[k] == first.value.fields[k]
  {
    if first.Some? && first.value.JObject? && second.Some? && second.value.JObject?
    then Ok(JObject(first.value.fields + second.value.fields))
    else Err(MergeFailure)
  }

  /** The merge is shallow: a nested object under a shared key is replaced
      by the second one wholesale, even where the first held other fields. */
  lemma MergeIsShallow(a: map<string, Json>, b: map<string, Json>, k: string, inner: string)
    requires k in a && k in b && a[k].JObject? && b[k].JObject?
    requires inner in a[k].fields && inner !in b[k].fields
    ensures var m := MergeJson(Some(JObject(a)), Some(JObject(b)));
      m.Ok? && k in m.value.fields && inner !in m.value.fields[k].fields
  {
  }
}
