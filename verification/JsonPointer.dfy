/** JSON values, as parsed: numbers are opaque, objects keep their members in order. */
module JsonValues {
  import opened Options

  datatype Member = Member(key: string, value: Json)
  datatype Json = Null | Bool(b: bool) | Number(n: int) | Text(s: string) | Arr(items: seq<Json>) | Obj(members: seq<Member>)

  function Find(ms: seq<Member>, key: string): Option<Json> {
    if ms == [] then None else if ms[0].key == key then Some(ms[0].value) else Find(ms[1..], key)
  }

  function Get(j: Json, key: string): Option<Json> {
    if j.Obj? then Find(j.members, key) else None
  }
}

/** Local references of a JSON Schema: the pointer resolver, and its relation to sections 3 and 4 of
    RFC 6901 (and section 6, for fragments that percent-encode keys). */
module JsonPointer {
  import opened Options
  import opened Strings
  import opened JsonValues

  // ----- Text -----

  /** Left-to-right replacement of the two-character pattern `a b`. */
  function ReplacePair(s: string, a: char, b: char, with: char): string {
    if |s| < 2 then s
    else if s[0] == a && s[1] == b then [with] + ReplacePair(s[2..], a, b, with)
    else [s[0]] + ReplacePair(s[1..], a, b, with)
  }

  /** `~1` is decoded before `~0`. */
  function Unescape(s: string): string {
    ReplacePair(ReplacePair(s, '~', '1', '/'), '~', '0', '~')
  }

  function Escape(key: string): string {
    if key == "" then ""
    else (if key[0] == '~' then "~0" else if key[0] == '/' then "~1" else [key[0]]) + Escape(key[1..])
  }

  function EscapeTilde(key: string): string {
    if key == "" then ""
    else (if key[0] == '~' then "~0" else [key[0]]) + EscapeTilde(key[1..])
  }

  function NonEmpty(parts: seq<string>): seq<string> {
    if parts == [] then []
    else (if parts[0] == "" then [] else [parts[0]]) + NonEmpty(parts[1..])
  }

  // ----- Resolving -----

  /** `Malformed` is the exception a bad percent sequence raises. */
  datatype Resolution = Found(schema: Json) | Absent | Malformed

  function Follow(decode: string -> Option<string>, current: Json, segments: seq<string>): Resolution
    decreases |segments|
  {
    if segments == [] then if current.Bool? || current.Obj? then Found(current) else Absent
    else
      var text := decode(segments[0]);
      if text.None? then Malformed
      else
        var next := Get(current, Unescape(text.value));
        if next.None? then Absent else Follow(decode, next.value, segments[1..])
  }

  predicate Local(ref: string) {
    ref == "#" || (|ref| >= 2 && ref[..2] == "#/")
  }

  function Segments(ref: string): seq<string> {
    NonEmpty(Split(if |ref| < 2 then "" else ref[2..], '/'))
  }

  function Resolve(decode: string -> Option<string>, ref: string, root: Json): Resolution {
    if Local(ref) then Follow(decode, root, Segments(ref)) else Absent
  }

  method ResolveRef(decode: string -> Option<string>, ref: string, root: Json) returns (r: Resolution)
    ensures r == Resolve(decode, ref, root)
  {
    if !Local(ref) { return Absent; }
    var current := root;
    var segments := Segments(ref);
    var n := 0;
    while n < |segments|
      invariant n <= |segments|
      invariant Follow(decode, root, segments) == Follow(decode, current, segments[n..])
    {
      assert segments[n..][1..] == segments[n + 1..];
      var text := decode(segments[n]);
      if text.None? { return Malformed; }
      var key := Unescape(text.value);
      if Get(current, key).None? { return Absent; }
      current := Get(current, key).value;
      n := n + 1;
    }
    return if current.Bool? || current.Obj? then Found(current) else Absent;
  }

  // ----- Paths and pointers -----

  /** The value a list of keys leads to through nested objects. */
  function Walk(j: Json, path: seq<string>): Option<Json>
    decreases |path|
  {
    if path == [] then Some(j)
    else
      var next := Get(j, path[0]);
      if next.None? then None else Walk(next.value, path[1..])
  }

  function AsSchema(j: Option<Json>): Resolution {
    if j.Some? && (j.value.Bool? || j.value.Obj?) then Found(j.value) else Absent
  }

  /** The pointer of a path, each key escaped and then encoded for the fragment. */
  function Tail(encode: string -> string, path: seq<string>): string {
    if path == [] then "" else "/" + encode(Escape(path[0])) + Tail(encode, path[1..])
  }

  function Pointer(encode: string -> string, path: seq<string>): string {
    "#" + Tail(encode, path)
  }

  /** The fragment codec carries a key: it decodes to what was encoded, adds no slash and neither
      empties nor fills it. */
  predicate Carries(encode: string -> string, decode: string -> Option<string>, key: string) {
    var e := encode(Escape(key));
    decode(e) == Some(Escape(key)) && '/' !in e && (e == "" <==> key == "")
  }

  // ----- Escaping -----

  lemma {:induction false} SlashesFirst(key: string)
    ensures ReplacePair(Escape(key), '~', '1', '/') == EscapeTilde(key)
  {
    if key != "" {
      var rest := Escape(key[1..]);
      SlashesFirst(key[1..]);
      if key[0] == '~' {
        assert Escape(key) == "~" + ("0" + rest);
        ReplaceSkips('~', "0" + rest, '~', '1', '/');
        ReplaceSkips('0', rest, '~', '1', '/');
      } else if key[0] == '/' {
        assert Escape(key)[2..] == rest;
      } else {
        ReplaceSkips(key[0], rest, '~', '1', '/');
      }
    }
  }

  lemma ReplaceSkips(x: char, s: string, a: char, b: char, with: char)
    requires x != a || s == "" || s[0] != b
    ensures ReplacePair([x] + s, a, b, with) == [x] + ReplacePair(s, a, b, with)
  {
    assert ([x] + s)[1..] == s;
  }

  lemma {:induction false} TildesSecond(key: string)
    ensures ReplacePair(EscapeTilde(key), '~', '0', '~') == key
  {
    if key != "" {
      var rest := EscapeTilde(key[1..]);
      TildesSecond(key[1..]);
      if key[0] == '~' {
        assert EscapeTilde(key)[2..] == rest;
      } else {
        ReplaceSkips(key[0], rest, '~', '0', '~');
      }
    }
  }

  lemma UnescapeInverts(key: string)
    ensures Unescape(Escape(key)) == key
  {
    SlashesFirst(key);
    TildesSecond(key);
  }

  /** The decoding order matters: the other order turns the escaped key `~1` into a slash. */
  lemma WrongOrderFails()
    ensures Escape("~1") == "~01" && Unescape("~01") == "~1"
    ensures ReplacePair(ReplacePair("~01", '~', '0', '~'), '~', '1', '/') == "/"
  {
    assert "~1"[1..] == "1" && "1"[1..] == "";
    assert Escape("1") == "1";
    UnescapeInverts("~1");
    assert "~01"[2..] == "1";
    assert ReplacePair("~01", '~', '0', '~') == "~1";
  }

  lemma {:induction false} EscapeHasNoSlash(key: string)
    ensures '/' !in Escape(key) && (Escape(key) == "" <==> key == "")
  {
    if key != "" {
      EscapeHasNoSlash(key[1..]);
    }
  }

  // ----- Splitting -----

  function Encoded(encode: string -> string, path: seq<string>): seq<string> {
    if path == [] then [] else [encode(Escape(path[0]))] + Encoded(encode, path[1..])
  }

  /** Splitting a non-empty pointer gives back the encoded keys. */
  lemma {:induction false} SplitTail(encode: string -> string, decode: string -> Option<string>, path: seq<string>)
    requires path != [] && forall k :: k in path ==> Carries(encode, decode, k)
    ensures Split(Tail(encode, path)[1..], '/') == Encoded(encode, path)
    decreases |path|
  {
    var e := encode(Escape(path[0]));
    var rest := path[1..];
    assert Carries(encode, decode, path[0]);
    if rest != [] {
      SplitTail(encode, decode, rest);
    }
    SplitFirst(e, Tail(encode, rest));
  }

  /** The first token of a pointer whose remainder is empty or starts with a slash. */
  lemma SplitFirst(e: string, tail: string)
    requires '/' !in e && (tail == "" || tail[0] == '/')
    ensures Split(("/" + e + tail)[1..], '/') == [e] + if tail == "" then [] else Split(tail[1..], '/')
  {
    assert ("/" + e + tail)[1..] == e + tail;
    if tail == "" {
      assert e + tail == e && [e] + [] == [e];
      SplitPlain(e, '/');
    } else {
      assert e + tail == e + "/" + tail[1..];
      SplitAtSeparator(e, tail[1..], '/');
    }
  }

  /** Following the encoded keys, empty ones dropped, is walking the non-empty keys. */
  lemma {:induction false} FollowWalks(encode: string -> string, decode: string -> Option<string>, j: Json, path: seq<string>)
    requires forall k :: k in path ==> Carries(encode, decode, k)
    ensures Follow(decode, j, NonEmpty(Encoded(encode, path))) == AsSchema(Walk(j, NonEmpty(path)))
    decreases |path|
  {
    if path != [] {
      var e := encode(Escape(path[0]));
      assert Carries(encode, decode, path[0]);
      assert Encoded(encode, path)[1..] == Encoded(encode, path[1..]);
      if path[0] == "" {
        assert NonEmpty(path) == NonEmpty(path[1..]);
        assert NonEmpty(Encoded(encode, path)) == NonEmpty(Encoded(encode, path[1..]));
        FollowWalks(encode, decode, j, path[1..]);
      } else {
        UnescapeInverts(path[0]);
        assert NonEmpty(path)[1..] == NonEmpty(path[1..]);
        assert NonEmpty(Encoded(encode, path))[1..] == NonEmpty(Encoded(encode, path[1..]));
        var next := Get(j, path[0]);
        if next.Some? {
          FollowWalks(encode, decode, next.value, path[1..]);
        }
      }
    }
  }

  /** For every path whose keys the codec carries, resolving the path's pointer gives the subschema
      that the path's non-empty keys lead to. */
  lemma PointerResolves(encode: string -> string, decode: string -> Option<string>, root: Json, path: seq<string>)
    requires forall k :: k in path ==> Carries(encode, decode, k)
    ensures Resolve(decode, Pointer(encode, path), root) == AsSchema(Walk(root, NonEmpty(path)))
  {
    var ref := Pointer(encode, path);
    FollowWalks(encode, decode, root, path);
    if path == [] {
      assert ref == "#";
      assert NonEmpty([""]) == [];
    } else {
      SplitTail(encode, decode, path);
      assert ref[..2] == "#/";
      assert ref[2..] == Tail(encode, path)[1..];
    }
  }

  lemma {:induction false} NonEmptyIdentity(path: seq<string>)
    requires "" !in path
    ensures NonEmpty(path) == path
  {
    if path != [] {
      NonEmptyIdentity(path[1..]);
      assert [path[0]] + path[1..] == path;
    }
  }

  /** The round trip: with percent-free, non-empty keys and no percent-encoding, the pointer resolves
      to exactly the subschema at the path. */
  lemma PointerRoundTrip(decode: string -> Option<string>, root: Json, path: seq<string>)
    requires forall s: string :: '%' !in s ==> decode(s) == Some(s)
    requires forall k :: k in path ==> k != "" && '%' !in k
    ensures Resolve(decode, Pointer(s => s, path), root) == AsSchema(Walk(root, path))
  {
    forall k | k in path
      ensures Carries(s => s, decode, k)
    {
      EscapeHasNoSlash(k);
      EscapeKeepsPercent(k);
    }
    PointerResolves(s => s, decode, root, path);
    NonEmptyIdentity(path);
  }

  lemma {:induction false} EscapeKeepsPercent(key: string)
    requires '%' !in key
    ensures '%' !in Escape(key)
  {
    if key != "" {
      EscapeKeepsPercent(key[1..]);
    }
  }

  /** An empty key is skipped: the pointer of the path `[""]` resolves to the whole document. */
  lemma EmptyKeySkipped(decode: string -> Option<string>)
    requires decode("") == Some("")
    ensures var root := Obj([Member("", Bool(false))]);
            Resolve(decode, Pointer(s => s, [""]), root) == Found(root) && Walk(root, [""]) == Some(Bool(false))
  {
    var root := Obj([Member("", Bool(false))]);
    assert Carries(s => s, decode, "");
    PointerResolves(s => s, decode, root, [""]);
    assert NonEmpty([""]) == [];
    assert Walk(Bool(false), [""][1..]) == Some(Bool(false));
  }

  // ----- The standard's evaluation -----

  predicate Digits(s: string) {
    forall i :: 0 <= i < |s| ==> '0' <= s[i] <= '9'
  }

  /** An array token: zero, or digits without a leading zero. */
  predicate IsIndex(token: string) {
    token == "0" || (token != "" && Digits(token) && token[0] != '0')
  }

  function Value(digits: string): nat
    requires Digits(digits)
  {
    if digits == "" then 0
    else 10 * Value(digits[..|digits| - 1]) + (digits[|digits| - 1] as int - '0' as int)
  }

  /** One token of section 4 of RFC 6901: a member of an object, or an element of an array. */
  function Child(j: Json, token: string): Option<Json> {
    match j
    case Obj(_) => Get(j, token)
    case Arr(items) => if IsIndex(token) && Value(token) < |items| then Some(items[Value(token)]) else None
    case _ => None
  }

  function Evaluate(j: Json, path: seq<string>): Option<Json>
    decreases |path|
  {
    if path == [] then Some(j)
    else
      var next := Child(j, path[0]);
      if next.None? then None else Evaluate(next.value, path[1..])
  }

  /** Without array tokens the standard only walks objects. */
  lemma {:induction false} EvaluateWalks(j: Json, path: seq<string>)
    requires forall k :: k in path ==> !IsIndex(k)
    ensures Evaluate(j, path) == Walk(j, path)
    decreases |path|
  {
    if path != [] {
      var next := Child(j, path[0]);
      assert next == Get(j, path[0]);
      if next.Some? {
        EvaluateWalks(next.value, path[1..]);
      }
    }
  }

  /** A reference into an array, as schemas use them: the resolver finds nothing where the standard
      finds a schema. */
  lemma ArrayTokenRefused(decode: string -> Option<string>)
    requires decode("anyOf") == Some("anyOf") && decode("0") == Some("0")
    ensures var root := Obj([Member("anyOf", Arr([Bool(true)]))]);
            && Pointer(s => s, ["anyOf", "0"]) == "#" + ("/" + "anyOf" + ("/" + "0"))
            && Resolve(decode, Pointer(s => s, ["anyOf", "0"]), root) == Absent
            && Evaluate(root, ["anyOf", "0"]) == Some(Bool(true))
  {
    TwoKeyPointer("anyOf", "0");
    AnyOfEvaluates();
    AnyOfBlocks();
    forall k | k in ["anyOf", "0"]
      ensures Carries(s => s, decode, k)
    {
      EscapePlain(k);
    }
    PointerResolves(s => s, decode, Obj([Member("anyOf", Arr([Bool(true)]))]), ["anyOf", "0"]);
  }

  /** The pointer of two keys that need no escaping. */
  lemma TwoKeyPointer(a: string, b: string)
    requires '~' !in a && '/' !in a && '~' !in b && '/' !in b
    ensures Pointer(s => s, [a, b]) == "#" + ("/" + a + ("/" + b))
  {
    EscapePlain(a);
    EscapePlain(b);
    assert [a, b][1..] == [b] && [b][1..] == [];
    assert Tail(s => s, [b]) == "/" + b + "";
  }

  lemma AnyOfEvaluates()
    ensures Evaluate(Obj([Member("anyOf", Arr([Bool(true)]))]), ["anyOf", "0"]) == Some(Bool(true))
  {
    assert ["anyOf", "0"][1..] == ["0"] && ["0"][1..] == [];
    assert Value("0") == 0 by { assert "0"[..0] == ""; }
    assert Evaluate(Arr([Bool(true)]), ["0"]) == Evaluate(Bool(true), []);
  }

  lemma AnyOfBlocks()
    ensures Walk(Obj([Member("anyOf", Arr([Bool(true)]))]), NonEmpty(["anyOf", "0"])).None?
  {
    NonEmptyIdentity(["anyOf", "0"]);
    assert ["anyOf", "0"][1..] == ["0"];
    assert Walk(Arr([Bool(true)]), ["0"]).None?;
  }

  lemma {:induction false} EscapePlain(key: string)
    requires '~' !in key && '/' !in key
    ensures Escape(key) == key
  {
    if key != "" {
      EscapePlain(key[1..]);
      assert [key[0]] + key[1..] == key;
    }
  }

  // ----- When the resolver agrees with the standard -----

  /** A document that has a value at the given path: an array wherever the path has an array token. */
  function Document(path: seq<string>): Json {
    if path == [] then Obj([])
    else if IsIndex(path[0]) then Arr(seq(Value(path[0]), _ => Null) + [Document(path[1..])])
    else Obj([Member(path[0], Document(path[1..]))])
  }

  lemma {:induction false} DocumentHasPath(path: seq<string>)
    ensures Evaluate(Document(path), path) == Some(Obj([]))
  {
    if path != [] {
      DocumentHasPath(path[1..]);
    }
  }

  /** The resolver does not get past the first array. */
  lemma {:induction false} DocumentBlocksWalk(path: seq<string>)
    requires exists k :: k in path && IsIndex(k)
    ensures Walk(Document(path), path).None?
  {
    if !IsIndex(path[0]) {
      DocumentBlocksWalk(path[1..]);
    }
  }

  /** A document of objects only. */
  function ObjectDocument(keys: seq<string>): Json {
    if keys == [] then Obj([]) else Obj([Member(keys[0], ObjectDocument(keys[1..]))])
  }

  lemma {:induction false} ObjectDocumentHasPath(keys: seq<string>)
    ensures Walk(ObjectDocument(keys), keys) == Some(Obj([]))
  {
    if keys != [] {
      ObjectDocumentHasPath(keys[1..]);
    }
  }

  lemma {:induction false} NonEmptyHasNoEmpty(path: seq<string>)
    ensures "" !in NonEmpty(path)
  {
    if path != [] {
      NonEmptyHasNoEmpty(path[1..]);
    }
  }

  lemma FindOther(m: Member, key: string)
    requires m.key != key
    ensures Find([m], key).None?
  {
    assert [m][1..] == [];
  }

  /** The document of the non-empty keys has no value at a path with an empty key. */
  lemma {:induction false} ObjectDocumentLacksEmpty(path: seq<string>)
    requires "" in path
    ensures Evaluate(ObjectDocument(NonEmpty(path)), path).None?
  {
    var rest := NonEmpty(path[1..]);
    NonEmptyHasNoEmpty(path[1..]);
    if path[0] == "" {
      assert NonEmpty(path) == rest;
      if rest != [] {
        assert rest[0] in rest;
        FindOther(Member(rest[0], ObjectDocument(rest[1..])), "");
      }
    } else {
      assert NonEmpty(path)[0] == path[0] && NonEmpty(path)[1..] == rest;
      ObjectDocumentLacksEmpty(path[1..]);
    }
  }

  /** The keys with which the resolver follows the standard. */
  predicate PlainKeys(path: seq<string>) {
    forall k :: k in path ==> k != "" && !IsIndex(k)
  }

  ghost predicate Agrees(encode: string -> string, decode: string -> Option<string>, path: seq<string>, root: Json) {
    Resolve(decode, Pointer(encode, path), root) == AsSchema(Evaluate(root, path))
  }

  /** For a path whose keys the codec carries, the resolver finds what section 4 of RFC 6901 defines in
      every document if and only if no key of the path is empty or an array index. */
  lemma PointerExact(encode: string -> string, decode: string -> Option<string>, path: seq<string>)
    requires forall k :: k in path ==> Carries(encode, decode, k)
    ensures (forall root :: Agrees(encode, decode, path, root)) <==> PlainKeys(path)
  {
    if PlainKeys(path) {
      NonEmptyIdentity(path);
      forall root
        ensures Agrees(encode, decode, path, root)
      {
        PointerResolves(encode, decode, root, path);
        EvaluateWalks(root, path);
      }
    } else {
      var root := Disagreement(encode, decode, path);
      assert !Agrees(encode, decode, path, root);
    }
  }

  lemma Disagreement(encode: string -> string, decode: string -> Option<string>, path: seq<string>) returns (root: Json)
    requires (forall k :: k in path ==> Carries(encode, decode, k)) && !PlainKeys(path)
    ensures !Agrees(encode, decode, path, root)
  {
    if "" in path {
      root := ObjectDocument(NonEmpty(path));
      ObjectDocumentHasPath(NonEmpty(path));
      ObjectDocumentLacksEmpty(path);
    } else {
      root := Document(path);
      NonEmptyIdentity(path);
      DocumentHasPath(path);
      DocumentBlocksWalk(path);
    }
    PointerResolves(encode, decode, root, path);
  }
}
