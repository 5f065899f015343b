/** A small syntax of types with a printer and a reading (which JSON values inhabit a type), JSON
    Schema's validity (2020-12, with the older array form of `items`), and the type the renderer
    gives a schema without references. */
module SchemaTypes {
  import opened Options
  import opened JsonValues
  import opened JsonPointer
  import opened TypeRender

  // ----- Types -----

  datatype Kind = Strings | Numbers | Booleans | Nulls

  datatype Property = Property(name: string, optional: bool, body: Type)

  /** `notes` are the property schemas whose descriptions a record is laid out with. */
  datatype Type =
    | Anything
    | Nothing
    | Basic(kind: Kind)
    | Literal(value: Json)
    | Either(alternatives: seq<Type>)
    | Both(parts: seq<Type>)
    | ListOf(element: Type)
    | TupleOf(elements: seq<Type>)
    | AnyList
    | RecordOf(properties: seq<Property>, index: Option<Type>, notes: Json)

  ghost predicate OfKind(v: Json, kind: Kind) {
    match kind
    case Strings => v.Text?
    case Numbers => v.Number?
    case Booleans => v.Bool?
    case Nulls => v.Null?
  }

  lemma PartsSmaller(j: Json)
    ensures j.Arr? ==> forall i :: 0 <= i < |j.items| ==> Size(j.items[i]) < Size(j)
    ensures forall key :: Get(j, key).Some? ==> Size(Get(j, key).value) < Size(j)
  {
    if j.Arr? {
      forall i | 0 <= i < |j.items| ensures Size(j.items[i]) < Size(j) { ItemSmaller(j, i); }
    }
    forall key | Get(j, key).Some? ensures Size(Get(j, key).value) < Size(j) { GetSmaller(j, key); }
  }

  /** Equality of JSON values: the order of an object's members does not matter. */
  ghost predicate Same(a: Json, b: Json)
    decreases Size(a)
  {
    PartsSmaller(a);
    if a.Arr? && b.Arr? then |a.items| == |b.items| && forall i :: 0 <= i < |a.items| ==> Same(a.items[i], b.items[i])
    else if a.Obj? && b.Obj? then
      forall key :: if Get(a, key).Some? && Get(b, key).Some? then Same(Get(a, key).value, Get(b, key).value)
                    else Get(a, key) == Get(b, key)
    else a == b
  }

  ghost predicate Inhabits(v: Json, t: Type)
    decreases t
  {
    match t
    case Anything => true
    case Nothing => false
    case Basic(kind) => OfKind(v, kind)
    case Literal(value) => Same(v, value)
    case Either(ts) => exists i :: 0 <= i < |ts| && Inhabits(v, ts[i])
    case Both(ts) => forall i :: 0 <= i < |ts| ==> Inhabits(v, ts[i])
    case ListOf(element) => v.Arr? && forall k :: 0 <= k < |v.items| ==> Inhabits(v.items[k], element)
    case TupleOf(ts) => v.Arr? && |v.items| == |ts| && forall k :: 0 <= k < |ts| ==> Inhabits(v.items[k], ts[k])
    case AnyList => v.Arr?
    case RecordOf(ps, index, _) =>
      && v.Obj?
      && (forall i :: 0 <= i < |ps| ==>
            if Get(v, ps[i].name).Some? then Inhabits(Get(v, ps[i].name).value, ps[i].body) else ps[i].optional)
      && (index.Some? ==> forall key | Get(v, key).Some? && !Named(ps, key) :: Inhabits(Get(v, key).value, index.value))
  }

  predicate Named(ps: seq<Property>, key: string) {
    exists i :: 0 <= i < |ps| && ps[i].name == key
  }

  // ----- Printing -----

  function KindText(kind: Kind): string {
    match kind
    case Strings => "string"
    case Numbers => "number"
    case Booleans => "boolean"
    case Nulls => "null"
  }

  function Wrapped(text: string): string {
    if HasInfix(text, " | ") then "(" + text + ")" else text
  }

  function Print(c: Config, t: Type): string
    decreases t, 1
  {
    match t
    case Anything => "unknown"
    case Nothing => "never"
    case Basic(kind) => KindText(kind)
    case Literal(value) => c.stringify(value)
    case Either(ts) => Join(Unique(PrintAll(c, ts)), " | ")
    case Both(ts) => Join(seq(|ts|, i requires 0 <= i < |ts| => Wrapped(Print(c, ts[i]))), " & ")
    case ListOf(element) => "Array<" + Print(c, element) + ">"
    case TupleOf(ts) => "[" + Join(PrintAll(c, ts), ", ") + "]"
    case AnyList => "unknown[]"
    case RecordOf(ps, index, notes) =>
      var members := PrintProperties(c, ps) + (if index.Some? then ["[key: string]: " + Print(c, index.value) + ";"] else []);
      if members == [] then "{}" else c.layout(seq(|ps|, i requires 0 <= i < |ps| => ps[i].name), notes, members)
  }

  function PrintAll(c: Config, ts: seq<Type>): seq<string>
    decreases ts, 0
  {
    seq(|ts|, i requires 0 <= i < |ts| => Print(c, ts[i]))
  }

  function PrintProperties(c: Config, ps: seq<Property>): seq<string>
    decreases ps, 0
  {
    seq(|ps|, i requires 0 <= i < |ps| =>
      c.propertyKey(ps[i].name) + (if ps[i].optional then "?: " else ": ") + Print(c, ps[i].body) + ";")
  }

  // ----- Validity -----

  /** The instance types of the `type` keyword; a malformed entry constrains nothing. */
  ghost predicate ValidType(v: Json, t: Json) {
    match t
    case Text(name) =>
      if name == "string" then v.Text?
      else if name == "number" || name == "integer" then v.Number?
      else if name == "boolean" then v.Bool?
      else if name == "null" then v.Null?
      else if name == "array" then v.Arr?
      else if name == "object" then v.Obj?
      else true
    case Arr(entries) => exists i :: 0 <= i < |entries| && ValidType(v, entries[i])
    case _ => true
  }

  ghost predicate ValidLiteral(v: Json, s: Json) {
    && (Get(s, "const").Some? ==> Same(v, Get(s, "const").value))
    && (ItemsOf(Get(s, "enum")).Some? ==>
          var values := ItemsOf(Get(s, "enum")).value; exists i :: 0 <= i < |values| && Same(v, values[i]))
    && (Get(s, "type").Some? ==> ValidType(v, Get(s, "type").value))
  }

  ghost predicate Valid(v: Json, s: Json)
    decreases Size(s), 1
  {
    if s.Bool? then s.b
    else s.Obj? ==> ValidLiteral(v, s) && ValidVariants(v, s) && (v.Obj? ==> ValidObject(v, s)) && (v.Arr? ==> ValidArray(v, s))
  }

  ghost predicate ValidVariants(v: Json, s: Json)
    requires s.Obj?
    decreases Size(s), 0
  {
    SubschemasSmaller(s);
    && (ItemsOf(Get(s, "anyOf")).Some? ==>
          exists i :: 0 <= i < |ItemsOf(Get(s, "anyOf")).value| && Valid(v, ItemsOf(Get(s, "anyOf")).value[i]))
    && (ItemsOf(Get(s, "oneOf")).Some? ==>
          exists i :: 0 <= i < |ItemsOf(Get(s, "oneOf")).value| && Valid(v, ItemsOf(Get(s, "oneOf")).value[i])
                      && forall k :: 0 <= k < |ItemsOf(Get(s, "oneOf")).value| && k != i ==> !Valid(v, ItemsOf(Get(s, "oneOf")).value[k]))
    && (ItemsOf(Get(s, "allOf")).Some? ==>
          forall i :: 0 <= i < |ItemsOf(Get(s, "allOf")).value| ==> Valid(v, ItemsOf(Get(s, "allOf")).value[i]))
  }

  lemma KeywordsSmaller(s: Json)
    requires s.Obj?
    ensures forall key :: Get(s, key).Some? ==> Size(Get(s, key).value) < Size(s)
    ensures forall key :: Get(Properties(s), key).Some? ==> Size(Get(Properties(s), key).value) < Size(s)
  {
    PartsSmaller(s);
    PartsSmaller(Properties(s));
  }

  ghost predicate ValidObject(v: Json, s: Json)
    requires s.Obj? && v.Obj?
    decreases Size(s), 0
  {
    KeywordsSmaller(s);
    && (forall key | Get(Properties(s), key).Some? && Get(v, key).Some? ::
          Valid(Get(v, key).value, Get(Properties(s), key).value))
    && (ItemsOf(Get(s, "required")).Some? ==>
          forall key :: Text(key) in ItemsOf(Get(s, "required")).value ==> Get(v, key).Some?)
    && (Get(s, "additionalProperties").Some? ==>
          forall key | Get(v, key).Some? && Get(Properties(s), key).None? ::
            Valid(Get(v, key).value, Get(s, "additionalProperties").value))
  }

  /** The schemas of the leading elements: `prefixItems`, or `items` in its older array form. */
  function Leading(s: Json): seq<Json> {
    if ItemsOf(Get(s, "prefixItems")).Some? then ItemsOf(Get(s, "prefixItems")).value
    else if ItemsOf(Get(s, "items")).Some? then ItemsOf(Get(s, "items")).value
    else []
  }

  ghost predicate ValidArray(v: Json, s: Json)
    requires s.Obj? && v.Arr?
    decreases Size(s), 0
  {
    SubschemasSmaller(s);
    KeywordsSmaller(s);
    && (forall k :: 0 <= k < |v.items| && k < |Leading(s)| ==> Valid(v.items[k], Leading(s)[k]))
    && (Get(s, "items").Some? && !Get(s, "items").value.Arr? ==>
          forall k :: |Leading(s)| <= k < |v.items| ==> Valid(v.items[k], Get(s, "items").value))
  }

  // ----- The type of a schema -----

  /** Where the renderer goes from a schema without a reference, case by case. */
  datatype Node = Trivial | Const | Enum | AnyOf | AllOf | Entries | Basics | Listed | Tupled | Bare | Fields

  function NodeOf(s: Json): Node {
    if !s.Obj? then Trivial
    else if Get(s, "const").Some? then Const
    else if ItemsOf(Get(s, "enum")).Some? then Enum
    else if Variants(s).Some? then AnyOf
    else if ItemsOf(Get(s, "allOf")).Some? then AllOf
    else if TypeEntries(s).Some? then Entries
    else match ShapeOf(s)
      case Atom(_) => Basics
      case List =>
        if Get(s, "items").Some? && !Get(s, "items").value.Arr? then Listed
        else if Leading(s) != [] then Tupled
        else Bare
      case Record => Fields
  }

  /** The index signature's schema. */
  function IndexSchema(s: Json): Option<Json> {
    var additional := Get(s, "additionalProperties");
    if additional.None? then if Names(s) == [] then Some(Bool(true)) else None
    else if additional.value == Bool(false) then None
    else additional
  }

  function Children(s: Json): seq<Json> {
    match NodeOf(s)
    case AnyOf => Variants(s).value
    case AllOf => ItemsOf(Get(s, "allOf")).value
    case Entries => PerEntry(s, TypeEntries(s).value)
    case Listed => [Get(s, "items").value]
    case Tupled => Leading(s)
    case Fields => Values(Properties(s), Names(s)) + (if IndexSchema(s).Some? then [IndexSchema(s).value] else [])
    case _ => []
  }

  lemma IndexSmaller(s: Json)
    requires NodeOf(s) == Fields && IndexSchema(s).Some?
    ensures Size(IndexSchema(s).value) < Size(s)
  {
    KeywordsSmaller(s);
  }

  lemma FieldsSmaller(s: Json, i: nat)
    requires NodeOf(s) == Fields && i < |Children(s)|
    ensures Size(Children(s)[i]) < Size(s)
  {
    if i < |Names(s)| {
      PropertiesSmaller(s);
    } else {
      IndexSmaller(s);
    }
  }

  lemma ChildrenSmaller(s: Json)
    ensures forall i :: 0 <= i < |Children(s)| ==> Size(Children(s)[i]) < Size(s)
  {
    match NodeOf(s) {
      case Fields =>
        forall i | 0 <= i < |Children(s)| ensures Size(Children(s)[i]) < Size(s) { FieldsSmaller(s, i); }
      case Listed => GetSmaller(s, "items");
      case AnyOf => SubschemasSmaller(s);
      case AllOf => SubschemasSmaller(s);
      case Entries => SubschemasSmaller(s);
      case Tupled => SubschemasSmaller(s);
      case _ =>
    }
  }

  function Alternatives(ts: seq<Type>): Type {
    if Anything in ts then Anything else if ts == [] then Nothing else Either(ts)
  }

  /** What is known of an intersection: its parts other than `unknown`. */
  function Informative(ts: seq<Type>): seq<Type> {
    if ts == [] then [] else (if ts[0] == Anything then [] else [ts[0]]) + Informative(ts[1..])
  }

  function Together(ts: seq<Type>): Type {
    if Informative(ts) == [] then Anything else Both(Informative(ts))
  }

  function BasicOf(s: Json): Type {
    if Get(s, "type") == Some(Text("string")) then Basic(Strings)
    else if Get(s, "type") == Some(Text("number")) || Get(s, "type") == Some(Text("integer")) then Basic(Numbers)
    else if Get(s, "type") == Some(Text("boolean")) then Basic(Booleans)
    else if Get(s, "type") == Some(Text("null")) then Basic(Nulls)
    else Anything
  }

  function LiteralsOf(values: seq<Json>): seq<Type> {
    seq(|values|, i requires 0 <= i < |values| => Literal(values[i]))
  }

  function PropertiesOf(s: Json, ts: seq<Type>): seq<Property>
    requires |Names(s)| <= |ts|
  {
    seq(|Names(s)|, i requires 0 <= i < |Names(s)| => Property(Names(s)[i], !Required(s, Names(s)[i]), ts[i]))
  }

  function Assemble(s: Json, ts: seq<Type>): Type
    requires |ts| == |Children(s)|
  {
    match NodeOf(s)
    case Trivial => if s == Bool(false) then Nothing else Anything
    case Const => Literal(Get(s, "const").value)
    case Enum => Alternatives(LiteralsOf(ItemsOf(Get(s, "enum")).value))
    case AnyOf => Alternatives(ts)
    case AllOf => Together(ts)
    case Entries => Alternatives(ts)
    case Basics => BasicOf(s)
    case Listed => ListOf(ts[0])
    case Tupled => TupleOf(ts)
    case Bare => AnyList
    case Fields =>
      RecordOf(PropertiesOf(s, ts), if IndexSchema(s).Some? then Some(ts[|Names(s)|]) else None, Properties(s))
  }

  function TypeOf(s: Json): Type
    decreases Size(s)
  {
    ChildrenSmaller(s);
    Assemble(s, seq(|Children(s)|, i requires 0 <= i < |Children(s)| => TypeOf(Children(s)[i])))
  }

  /** A condition on every schema the renderer comes to. */
  ghost predicate Throughout(s: Json, p: Json -> bool)
    decreases Size(s)
  {
    ChildrenSmaller(s);
    p(s) && forall i :: 0 <= i < |Children(s)| ==> Throughout(Children(s)[i], p)
  }

  // ----- What the renderer prints -----

  /** The text helpers never spell `unknown` themselves. */
  ghost predicate Distinctive(c: Config) {
    && (forall v :: c.stringify(v) != "unknown")
    && (forall names, notes, members :: c.layout(names, notes, members) != "unknown")
  }

  predicate NoReference(s: Json) {
    !(Get(s, "$ref").Some? && Get(s, "$ref").value.Text?)
  }

  ghost predicate ReferenceFree(s: Json) {
    Throughout(s, NoReference)
  }

  lemma {:induction false} JoinHas(parts: seq<string>, separator: string, x: char)
    requires |parts| >= 2 && x in separator
    ensures x in Join(parts, separator)
  {
  }

  /** Unions and intersections are not empty and hold no `Anything`. */
  predicate Normal(t: Type)
    decreases t
  {
    match t
    case Either(ts) => ts != [] && forall i :: 0 <= i < |ts| ==> ts[i] != Anything && Normal(ts[i])
    case Both(ts) => ts != [] && forall i :: 0 <= i < |ts| ==> ts[i] != Anything && Normal(ts[i])
    case _ => true
  }

  lemma UnionNotUnknown(texts: seq<string>)
    requires texts != [] && "unknown" !in texts
    ensures Join(Unique(texts), " | ") != "unknown"
  {
    UniqueMeaning(texts);
    var unique := Unique(texts);
    assert texts[0] in unique;
    if |unique| == 1 {
      assert unique[0] in texts;
    } else {
      JoinHas(unique, " | ", '|');
      assert '|' !in "unknown";
    }
  }

  lemma IntersectionNotUnknown(texts: seq<string>)
    requires texts != [] && "unknown" !in texts
    ensures Join(seq(|texts|, i requires 0 <= i < |texts| => Wrapped(texts[i])), " & ") != "unknown"
  {
    var wrapped := seq(|texts|, i requires 0 <= i < |texts| => Wrapped(texts[i]));
    if |texts| == 1 {
      assert texts[0] in texts;
      assert Wrapped(texts[0]) != "unknown" by {
        if HasInfix(texts[0], " | ") { assert Wrapped(texts[0])[0] == '('; }
      }
    } else {
      JoinHas(wrapped, " & ", '&');
      assert '&' !in "unknown";
    }
  }

  /** Only `Anything` is spelled `unknown`. */
  lemma {:induction false} UnknownText(c: Config, t: Type)
    requires Distinctive(c) && Normal(t)
    ensures Print(c, t) == "unknown" <==> t == Anything
    decreases t
  {
    match t {
      case Either(ts) =>
        forall i | 0 <= i < |ts| ensures PrintAll(c, ts)[i] != "unknown" { UnknownText(c, ts[i]); }
        UnionNotUnknown(PrintAll(c, ts));
      case Both(ts) =>
        forall i | 0 <= i < |ts| ensures PrintAll(c, ts)[i] != "unknown" { UnknownText(c, ts[i]); }
        IntersectionNotUnknown(PrintAll(c, ts));
        assert seq(|ts|, i requires 0 <= i < |ts| => Wrapped(PrintAll(c, ts)[i]))
            == seq(|ts|, i requires 0 <= i < |ts| => Wrapped(Print(c, ts[i])));
      case ListOf(element) => assert Print(c, t)[0] == 'A';
      case TupleOf(ts) => assert Print(c, t)[0] == '[';
      case AnyList => assert Print(c, t)[7] == '[';
      case RecordOf(ps, index, notes) => 
      case Basic(kind) => 
      case _ =>
    }
  }
}
