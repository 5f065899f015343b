/** Rendering a JSON Schema as a TypeScript type. Local references are expanded in place; a reference
    on the current path and any reference past the expansion limit render as `unknown`. Expansions
    are counted across siblings, so the recursion terminates although a target may be larger than
    the reference to it. */
module TypeRender {
  import opened Options
  import opened JsonValues
  import opened JsonPointer

  /** The text helpers of the renderer, and the document references are resolved in. The code's limit
      is `MaxRefExpansions`. `layout` arranges members on one line or, with descriptions, on several. */
  datatype Config = Config(
    root: Json,
    limit: nat,
    decode: string -> Option<string>,
    stringify: Json -> string,
    propertyKey: string -> string,
    layout: (seq<string>, Json, seq<string>) -> string)

  const MaxRefExpansions := 32

  /** `text` is `None` when a malformed reference raised. */
  datatype Rendered = Rendered(text: Option<string>, expansions: nat)
  datatype Texts = Texts(all: Option<seq<string>>, expansions: nat)

  // ----- Size -----

  function Sum(s: seq<nat>): nat {
    if s == [] then 0 else s[0] + Sum(s[1..])
  }

  function Size(j: Json): nat {
    match j
    case Arr(items) => 1 + Sum(seq(|items|, i requires 0 <= i < |items| => 1 + Size(items[i])))
    case Obj(members) => 1 + Sum(seq(|members|, i requires 0 <= i < |members| => 1 + Size(members[i].value)))
    case _ => 1
  }

  lemma {:induction false} SumAtLeast(s: seq<nat>, i: nat)
    requires i < |s|
    ensures s[i] <= Sum(s)
  {
    if i > 0 {
      SumAtLeast(s[1..], i - 1);
    }
  }

  lemma {:induction false} SumDecreases(s: seq<nat>, i: nat, v: nat)
    requires i < |s| && v < s[i]
    ensures Sum(s[i := v]) < Sum(s)
  {
    if i > 0 {
      assert s[i := v][1..] == s[1..][i - 1 := v];
      SumDecreases(s[1..], i - 1, v);
    } else {
      assert s[i := v][1..] == s[1..];
    }
  }

  lemma ItemSmaller(j: Json, i: nat)
    requires j.Arr? && i < |j.items|
    ensures Size(j.items[i]) < Size(j)
  {
    SumAtLeast(seq(|j.items|, k requires 0 <= k < |j.items| => 1 + Size(j.items[k])), i);
  }

  lemma MemberSmaller(j: Json, i: nat)
    requires j.Obj? && i < |j.members|
    ensures Size(j.members[i].value) < Size(j)
  {
    SumAtLeast(seq(|j.members|, k requires 0 <= k < |j.members| => 1 + Size(j.members[k].value)), i);
  }

  function IndexOf(ms: seq<Member>, key: string): (k: nat)
    ensures k <= |ms| && (Find(ms, key).Some? <==> k < |ms|)
    ensures k < |ms| ==> Find(ms, key) == Some(ms[k].value)
  {
    if ms == [] || ms[0].key == key then 0 else 1 + IndexOf(ms[1..], key)
  }

  lemma GetSmaller(j: Json, key: string)
    requires Get(j, key).Some?
    ensures Size(Get(j, key).value) < Size(j)
  {
    MemberSmaller(j, IndexOf(j.members, key));
  }

  /** The schema with one entry of its `type` array in place of the array. */
  function WithType(schema: Json, entry: Json): Json
    requires schema.Obj?
  {
    var k := IndexOf(schema.members, "type");
    if k < |schema.members| then Obj(schema.members[k := Member("type", entry)]) else schema
  }

  lemma WithTypeSmaller(schema: Json, i: nat)
    requires Get(schema, "type").Some? && Get(schema, "type").value.Arr? && i < |Get(schema, "type").value.items|
    ensures Size(WithType(schema, Get(schema, "type").value.items[i])) < Size(schema)
  {
    var ms := schema.members;
    var k := IndexOf(ms, "type");
    var entry := Get(schema, "type").value.items[i];
    var changed := ms[k := Member("type", entry)];
    ItemSmaller(ms[k].value, i);
    var before := seq(|ms|, x requires 0 <= x < |ms| => 1 + Size(ms[x].value));
    SumDecreases(before, k, 1 + Size(entry));
    assert before[k := 1 + Size(entry)] == seq(|changed|, x requires 0 <= x < |changed| => 1 + Size(changed[x].value));
  }

  // ----- Text -----

  function Join(parts: seq<string>, separator: string): string {
    if parts == [] then "" else if |parts| == 1 then parts[0] else parts[0] + separator + Join(parts[1..], separator)
  }

  /** First occurrences, in order. */
  function Unique(parts: seq<string>): seq<string> {
    if parts == [] then []
    else
      var before := Unique(parts[..|parts| - 1]);
      if parts[|parts| - 1] in before then before else before + [parts[|parts| - 1]]
  }

  /** A union lists the same alternatives, each once, in order of first appearance. */
  lemma {:induction false} UniqueMeaning(parts: seq<string>)
    ensures var unique := Unique(parts);
            && (forall p :: p in unique <==> p in parts)
            && (forall i, j :: 0 <= i < j < |unique| ==> unique[i] != unique[j])
    ensures parts != [] ==> Unique(parts[..|parts| - 1]) <= Unique(parts)
  {
    if parts != [] {
      UniqueMeaning(parts[..|parts| - 1]);
      assert parts == parts[..|parts| - 1] + [parts[|parts| - 1]];
    }
  }

  function Union(types: seq<string>): string {
    var unique := Unique(types);
    if "unknown" in unique then "unknown" else if unique == [] then "never" else Join(unique, " | ")
  }

  function Known(parts: seq<string>): seq<string> {
    if parts == [] then [] else (if parts[0] == "unknown" then [] else [parts[0]]) + Known(parts[1..])
  }

  predicate HasInfix(s: string, part: string) {
    |part| <= |s| && (s[..|part|] == part || (s != "" && HasInfix(s[1..], part)))
  }

  function Parenthesised(parts: seq<string>): seq<string> {
    seq(|parts|, i requires 0 <= i < |parts| => if HasInfix(parts[i], " | ") then "(" + parts[i] + ")" else parts[i])
  }

  function Intersection(types: seq<string>): string {
    var parts := Known(types);
    if parts == [] then "unknown" else Join(Parenthesised(parts), " & ")
  }

  /** Code-point order of property names. */
  predicate Before(a: string, b: string) {
    if a == "" then true else if b == "" then false
    else a[0] < b[0] || (a[0] == b[0] && Before(a[1..], b[1..]))
  }

  function InsertName(name: string, names: seq<string>): seq<string> {
    if names == [] || Before(name, names[0]) then [name] + names else [names[0]] + InsertName(name, names[1..])
  }

  function SortedNames(ms: seq<Member>): seq<string> {
    if ms == [] then [] else InsertName(ms[0].key, SortedNames(ms[1..]))
  }

  lemma {:induction false} InsertedNames(name: string, names: seq<string>)
    ensures multiset(InsertName(name, names)) == multiset(names) + multiset{name}
  {
    if !(names == [] || Before(name, names[0])) {
      InsertedNames(name, names[1..]);
      assert names == [names[0]] + names[1..];
    }
  }

  predicate Ordered(names: seq<string>) {
    forall i :: 0 <= i < |names| - 1 ==> Before(names[i], names[i + 1])
  }

  lemma {:induction false} BeforeTotal(a: string, b: string)
    ensures Before(a, b) || Before(b, a)
  {
    if a != "" && b != "" {
      BeforeTotal(a[1..], b[1..]);
    }
  }

  lemma {:induction false} InsertOrdered(name: string, names: seq<string>)
    requires Ordered(names)
    ensures Ordered(InsertName(name, names))
  {
    if !(names == [] || Before(name, names[0])) {
      BeforeTotal(name, names[0]);
      InsertOrdered(name, names[1..]);
    }
  }

  function Keys(ms: seq<Member>): seq<string> {
    if ms == [] then [] else [ms[0].key] + Keys(ms[1..])
  }

  /** Property names come out in order, each as often as it occurs. */
  lemma {:induction false} NamesSorted(ms: seq<Member>)
    ensures Ordered(SortedNames(ms)) && multiset(SortedNames(ms)) == multiset(Keys(ms))
  {
    if ms != [] {
      NamesSorted(ms[1..]);
      InsertOrdered(ms[0].key, SortedNames(ms[1..]));
      InsertedNames(ms[0].key, SortedNames(ms[1..]));
    }
  }

  lemma {:induction false} NamesAreKeys(ms: seq<Member>, name: string)
    requires name in SortedNames(ms)
    ensures Find(ms, name).Some?
  {
    if ms != [] {
      InsertedNames(ms[0].key, SortedNames(ms[1..]));
      assert name in multiset(SortedNames(ms));
      if name != ms[0].key {
        assert name in multiset(SortedNames(ms[1..]));
        NamesAreKeys(ms[1..], name);
      }
    }
  }

  // ----- Rendering -----

  function Unknown(n: nat): Rendered { Rendered(Some("unknown"), n) }

  function ToType(c: Config, resolving: set<string>, n: nat, schema: Json): (r: Rendered)
    requires n <= c.limit
    ensures n <= r.expansions <= c.limit
    decreases c.limit - n, Size(schema), 3, 0
  {
    if schema.Bool? then Rendered(Some(if schema.b then "unknown" else "never"), n)
    else if !schema.Obj? then Unknown(n)
    else
      var ref := Get(schema, "$ref");
      if ref.Some? && ref.value.Text? then Reference(c, resolving, n, ref.value.s)
      else Plain(c, resolving, n, schema)
  }

  /** Expand a reference unless it is on the path already or the budget is used up. */
  function Reference(c: Config, resolving: set<string>, n: nat, ref: string): (r: Rendered)
    requires n <= c.limit
    ensures n <= r.expansions <= c.limit
    decreases c.limit - n, 0, 0, 0
  {
    if ref in resolving || n >= c.limit then Unknown(n)
    else match Resolve(c.decode, ref, c.root)
      case Malformed => Rendered(None, n)
      case Absent => Unknown(n)
      case Found(target) => ToType(c, resolving + {ref}, n + 1, target)
  }

  /** Children in order, each starting with the expansions its elder siblings left. */
  function MapTypes(c: Config, resolving: set<string>, n: nat, items: seq<Json>, ghost bound: nat): (r: Texts)
    requires n <= c.limit && forall i :: 0 <= i < |items| ==> Size(items[i]) < bound
    ensures n <= r.expansions <= c.limit && (r.all.Some? ==> |r.all.value| == |items|)
    decreases c.limit - n, bound, 0, |items|
  {
    if items == [] then Texts(Some([]), n)
    else
      var first := ToType(c, resolving, n, items[0]);
      if first.text.None? then Texts(None, first.expansions)
      else
        var rest := MapTypes(c, resolving, first.expansions, items[1..], bound);
        Texts(if rest.all.Some? then Some([first.text.value] + rest.all.value) else None, rest.expansions)
  }

  function Finish(t: Texts, f: seq<string> -> string): Rendered {
    Rendered(if t.all.Some? then Some(f(t.all.value)) else None, t.expansions)
  }

  function ItemsOf(j: Option<Json>): Option<seq<Json>> {
    if j.Some? && j.value.Arr? then Some(j.value.items) else None
  }

  function Variants(schema: Json): Option<seq<Json>> {
    if ItemsOf(Get(schema, "anyOf")).Some? then ItemsOf(Get(schema, "anyOf")) else ItemsOf(Get(schema, "oneOf"))
  }

  function TypeEntries(schema: Json): Option<seq<Json>> {
    ItemsOf(Get(schema, "type"))
  }

  function PerEntry(schema: Json, entries: seq<Json>): seq<Json>
    requires schema.Obj?
  {
    seq(|entries|, i requires 0 <= i < |entries| => WithType(schema, entries[i]))
  }

  function Plain(c: Config, resolving: set<string>, n: nat, schema: Json): (r: Rendered)
    requires n <= c.limit && schema.Obj?
    ensures n <= r.expansions <= c.limit
    decreases c.limit - n, Size(schema), 2, 0
  {
    SubschemasSmaller(schema);
    if Get(schema, "const").Some? then Rendered(Some(c.stringify(Get(schema, "const").value)), n)
    else if ItemsOf(Get(schema, "enum")).Some? then Rendered(Some(Union(Literals(c, ItemsOf(Get(schema, "enum")).value))), n)
    else if Variants(schema).Some? then
      Finish(MapTypes(c, resolving, n, Variants(schema).value, Size(schema)), Union)
    else if ItemsOf(Get(schema, "allOf")).Some? then
      Finish(MapTypes(c, resolving, n, ItemsOf(Get(schema, "allOf")).value, Size(schema)), Intersection)
    else if TypeEntries(schema).Some? then
      Finish(MapTypes(c, resolving, n, PerEntry(schema, TypeEntries(schema).value), Size(schema)), Union)
    else match ShapeOf(schema)
      case Atom(text) => Rendered(Some(text), n)
      case List => ArrayType(c, resolving, n, schema)
      case Record => ObjectType(c, resolving, n, schema)
  }

  function Literals(c: Config, values: seq<Json>): seq<string> {
    seq(|values|, i requires 0 <= i < |values| => c.stringify(values[i]))
  }

  datatype Shape = Atom(text: string) | List | Record

  /** The `type` keyword, or what the other keywords suggest when it is missing. */
  function ShapeOf(schema: Json): Shape {
    var t := Get(schema, "type");
    if t.None? then
      if Get(schema, "properties").Some? || Get(schema, "additionalProperties").Some? || Get(schema, "required").Some?
      then Record
      else if Get(schema, "items").Some? || Get(schema, "prefixItems").Some? then List
      else Atom("unknown")
    else if t.value == Text("string") then Atom("string")
    else if t.value == Text("number") || t.value == Text("integer") then Atom("number")
    else if t.value == Text("boolean") then Atom("boolean")
    else if t.value == Text("null") then Atom("null")
    else if t.value == Text("array") then List
    else if t.value == Text("object") then Record
    else Atom("unknown")
  }

  lemma {:induction false} SubschemasSmaller(schema: Json)
    requires schema.Obj?
    ensures forall key, i :: ItemsOf(Get(schema, key)).Some? && 0 <= i < |ItemsOf(Get(schema, key)).value|
              ==> Size(ItemsOf(Get(schema, key)).value[i]) < Size(schema)
    ensures TypeEntries(schema).Some? ==>
              forall i :: 0 <= i < |TypeEntries(schema).value| ==> Size(PerEntry(schema, TypeEntries(schema).value)[i]) < Size(schema)
  {
    forall key, i | ItemsOf(Get(schema, key)).Some? && 0 <= i < |ItemsOf(Get(schema, key)).value|
      ensures Size(ItemsOf(Get(schema, key)).value[i]) < Size(schema)
    {
      GetSmaller(schema, key);
      ItemSmaller(Get(schema, key).value, i);
    }
    if TypeEntries(schema).Some? {
      forall i | 0 <= i < |TypeEntries(schema).value|
        ensures Size(PerEntry(schema, TypeEntries(schema).value)[i]) < Size(schema)
      {
        WithTypeSmaller(schema, i);
      }
    }
  }

  function TupleItems(schema: Json): seq<Json> {
    if ItemsOf(Get(schema, "prefixItems")).Some? then ItemsOf(Get(schema, "prefixItems")).value
    else if ItemsOf(Get(schema, "items")).Some? then ItemsOf(Get(schema, "items")).value
    else []
  }

  function ArrayOf(r: Rendered): Rendered {
    Rendered(if r.text.Some? then Some("Array<" + r.text.value + ">") else None, r.expansions)
  }

  function Tuple(types: seq<string>): string { "[" + Join(types, ", ") + "]" }

  function ArrayType(c: Config, resolving: set<string>, n: nat, schema: Json): (r: Rendered)
    requires n <= c.limit && schema.Obj?
    ensures n <= r.expansions <= c.limit
    decreases c.limit - n, Size(schema), 1, 0
  {
    var items := Get(schema, "items");
    if items.Some? && !items.value.Arr? then
      GetSmaller(schema, "items");
      ArrayOf(ToType(c, resolving, n, items.value))
    else if TupleItems(schema) != [] then
      SubschemasSmaller(schema);
      Finish(MapTypes(c, resolving, n, TupleItems(schema), Size(schema)), Tuple)
    else Rendered(Some("unknown[]"), n)
  }

  function Properties(schema: Json): Json {
    var p := Get(schema, "properties");
    if p.Some? && p.value.Obj? then p.value else Obj([])
  }

  function Names(schema: Json): seq<string> {
    SortedNames(Properties(schema).members)
  }

  function ValueOf(properties: Json, name: string): Json {
    if Get(properties, name).Some? then Get(properties, name).value else Null
  }

  function Values(properties: Json, names: seq<string>): seq<Json> {
    seq(|names|, i requires 0 <= i < |names| => ValueOf(properties, names[i]))
  }

  predicate Required(schema: Json, name: string) {
    ItemsOf(Get(schema, "required")).Some? && Text(name) in ItemsOf(Get(schema, "required")).value
  }

  function MemberTexts(c: Config, schema: Json, names: seq<string>, types: seq<string>): seq<string>
    requires |names| == |types|
  {
    seq(|names|, i requires 0 <= i < |names| =>
      c.propertyKey(names[i]) + (if Required(schema, names[i]) then "" else "?") + ": " + types[i] + ";")
  }

  lemma PropertiesSmaller(schema: Json)
    requires schema.Obj?
    ensures forall i :: 0 <= i < |Names(schema)| ==> Size(Values(Properties(schema), Names(schema))[i]) < Size(schema)
  {
    var p := Properties(schema);
    forall i | 0 <= i < |Names(schema)|
      ensures Size(Values(p, Names(schema))[i]) < Size(schema)
    {
      NamesAreKeys(p.members, Names(schema)[i]);
      GetSmaller(p, Names(schema)[i]);
      GetSmaller(schema, "properties");
    }
  }

  function Closing(c: Config, schema: Json, members: seq<string>): string {
    if members == [] then "{}" else c.layout(Names(schema), Properties(schema), members)
  }

  function ObjectType(c: Config, resolving: set<string>, n: nat, schema: Json): (r: Rendered)
    requires n <= c.limit && schema.Obj?
    ensures n <= r.expansions <= c.limit
    decreases c.limit - n, Size(schema), 1, 0
  {
    PropertiesSmaller(schema);
    var types := MapTypes(c, resolving, n, Values(Properties(schema), Names(schema)), Size(schema));
    if types.all.None? then Rendered(None, types.expansions)
    else
      var members := MemberTexts(c, schema, Names(schema), types.all.value);
      var extra := Additional(c, resolving, types.expansions, schema);
      Rendered(if extra.all.Some? then Some(Closing(c, schema, members + extra.all.value)) else None, extra.expansions)
  }

  function Index(text: string): seq<string> { ["[key: string]: " + text + ";"] }

  /** The index signature, if any. */
  function Additional(c: Config, resolving: set<string>, n: nat, schema: Json): (r: Texts)
    requires n <= c.limit && schema.Obj?
    ensures n <= r.expansions <= c.limit
    decreases c.limit - n, Size(schema), 0, 0
  {
    var additional := Get(schema, "additionalProperties");
    if additional.None? then Texts(Some(if Names(schema) == [] then Index("unknown") else []), n)
    else if additional.value == Bool(false) then Texts(Some([]), n)
    else
      GetSmaller(schema, "additionalProperties");
      var r := ToType(c, resolving, n, additional.value);
      Texts(if r.text.Some? then Some(Index(r.text.value)) else None, r.expansions)
  }

  /** The whole rendering: a fresh context, and `unknown` when the text is too long. */
  function SchemaToType(c: Config, schema: Json, maxChars: Option<nat>): Option<string> {
    var r := ToType(c, {}, 0, schema);
    if r.text.Some? && maxChars.Some? && |r.text.value| > maxChars.value then Some("unknown") else r.text
  }
}
