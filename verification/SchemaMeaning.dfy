/** Rendered types against JSON Schema's validity, from both sides. Where the two part, the family
    of schemas is given and shown to fail. */
module SchemaMeaning {
  import opened Options
  import opened JsonValues
  import opened JsonPointer
  import opened TypeRender
  import opened SchemaTypes
  import opened SchemaText

  // ----- Readings of unions and intersections -----

  lemma AlternativesRead(v: Json, ts: seq<Type>)
    ensures Inhabits(v, Alternatives(ts)) <==> exists i :: 0 <= i < |ts| && Inhabits(v, ts[i])
  {
    if Anything in ts {
      var i :| 0 <= i < |ts| && ts[i] == Anything;
      assert Inhabits(v, ts[i]);
    }
  }

  lemma {:induction false} InformativeRead(v: Json, ts: seq<Type>)
    ensures (forall t :: t in Informative(ts) ==> Inhabits(v, t)) <==> (forall t :: t in ts ==> Inhabits(v, t))
  {
    if ts != [] {
      InformativeRead(v, ts[1..]);
      assert ts == [ts[0]] + ts[1..];
    }
  }

  lemma TogetherRead(v: Json, ts: seq<Type>)
    ensures Inhabits(v, Together(ts)) <==> forall i :: 0 <= i < |ts| ==> Inhabits(v, ts[i])
  {
    InformativeRead(v, ts);
    var parts := Informative(ts);
    assert (forall i :: 0 <= i < |parts| ==> Inhabits(v, parts[i])) <==> forall t :: t in parts ==> Inhabits(v, t);
  }

  // ----- One entry of a type array -----

  lemma {:induction false} FindReplaced(ms: seq<Member>, entry: Json, key: string)
    requires IndexOf(ms, "type") < |ms|
    ensures Find(ms[IndexOf(ms, "type") := Member("type", entry)], key) == if key == "type" then Some(entry) else Find(ms, key)
  {
    if ms[0].key != "type" {
      var k := IndexOf(ms[1..], "type");
      FindReplaced(ms[1..], entry, key);
      assert ms[k + 1 := Member("type", entry)][1..] == ms[1..][k := Member("type", entry)];
    } else {
      assert ms[0 := Member("type", entry)][1..] == ms[1..];
    }
  }

  lemma WithTypeGet(s: Json, entry: Json, key: string)
    requires Get(s, "type").Some?
    ensures Get(WithType(s, entry), key) == if key == "type" then Some(entry) else Get(s, key)
  {
    FindReplaced(s.members, entry, key);
  }

  // Everything but `type` is judged alike by schemas that differ in `type` only.

  ghost predicate DifferInType(s: Json, w: Json) {
    s.Obj? && w.Obj? && forall key :: key != "type" ==> Get(s, key) == Get(w, key)
  }

  lemma VariantsAgree(v: Json, s: Json, w: Json)
    requires DifferInType(s, w)
    ensures ValidVariants(v, s) == ValidVariants(v, w)
  {
    assert Get(s, "anyOf") == Get(w, "anyOf") && Get(s, "oneOf") == Get(w, "oneOf") && Get(s, "allOf") == Get(w, "allOf");
  }

  lemma ObjectsAgree(v: Json, s: Json, w: Json)
    requires DifferInType(s, w) && v.Obj?
    ensures ValidObject(v, s) == ValidObject(v, w)
  {
    assert Properties(s) == Properties(w);
  }

  lemma ArraysAgree(v: Json, s: Json, w: Json)
    requires DifferInType(s, w) && v.Arr?
    ensures ValidArray(v, s) == ValidArray(v, w)
  {
    assert Leading(s) == Leading(w);
  }

  lemma WithTypeDiffers(s: Json, entry: Json)
    requires Get(s, "type").Some?
    ensures DifferInType(s, WithType(s, entry)) && Get(WithType(s, entry), "type") == Some(entry)
  {
    forall key ensures Get(WithType(s, entry), key) == if key == "type" then Some(entry) else Get(s, key) {
      WithTypeGet(s, entry, key);
    }
  }

  lemma LiteralsAgree(v: Json, s: Json, w: Json)
    requires DifferInType(s, w) && Get(s, "type").Some? && Get(w, "type").Some?
    requires ValidType(v, Get(w, "type").value) ==> ValidType(v, Get(s, "type").value)
    ensures ValidLiteral(v, w) <==> ValidLiteral(v, s) && ValidType(v, Get(w, "type").value)
  {
  }

  lemma EntryRead(v: Json, s: Json, entry: Json)
    requires TypeEntries(s).Some? && entry in TypeEntries(s).value
    ensures Valid(v, WithType(s, entry)) <==> Valid(v, s) && ValidType(v, entry)
  {
    var w := WithType(s, entry);
    WithTypeDiffers(s, entry);
    LiteralsAgree(v, s, w);
    VariantsAgree(v, s, w);
    if v.Obj? { ObjectsAgree(v, s, w); }
    if v.Arr? { ArraysAgree(v, s, w); }
  }

  /** A type array is the union of its entries. */
  lemma EntriesRead(v: Json, s: Json)
    requires TypeEntries(s).Some?
    ensures Valid(v, s) <==> exists i :: 0 <= i < |PerEntry(s, TypeEntries(s).value)| && Valid(v, PerEntry(s, TypeEntries(s).value)[i])
  {
    var entries := TypeEntries(s).value;
    forall i | 0 <= i < |entries|
      ensures Valid(v, PerEntry(s, entries)[i]) <==> Valid(v, s) && ValidType(v, entries[i])
    {
      EntryRead(v, s, entries[i]);
    }
    if Valid(v, s) {
      var i :| 0 <= i < |entries| && ValidType(v, entries[i]);
      assert Valid(v, PerEntry(s, entries)[i]);
    }
  }

  // ----- Soundness -----

  /** Every valid value inhabits the rendered type. */
  ghost predicate Sound(s: Json) {
    forall v :: Valid(v, s) ==> Inhabits(v, TypeOf(s))
  }

  /** Every inhabitant of the rendered type is valid. */
  ghost predicate Complete(s: Json) {
    forall v :: Inhabits(v, TypeOf(s)) ==> Valid(v, s)
  }

  /** Arrays and objects say so in `type`, there is no tuple, and no leading element beside `items`. */
  predicate Regular(s: Json) {
    match NodeOf(s)
    case Listed => Get(s, "type").Some? && Leading(s) == []
    case Tupled => false
    case Bare => Get(s, "type").Some?
    case Fields => Get(s, "type").Some?
    case _ => true
  }

  lemma NamesExact(s: Json, ts: seq<Type>, key: string)
    requires |Names(s)| <= |ts|
    ensures Named(PropertiesOf(s, ts), key) <==> Get(Properties(s), key).Some?
    ensures key in Names(s) <==> Get(Properties(s), key).Some?
  {
    var ms := Properties(s).members;
    NamesSorted(ms);
    if key in Names(s) {
      NamesAreKeys(ms, key);
      var i :| 0 <= i < |Names(s)| && Names(s)[i] == key;
      assert PropertiesOf(s, ts)[i].name == key;
    }
    if Get(Properties(s), key).Some? {
      FoundIsKey(ms, key);
      assert key in multiset(Keys(ms));
      assert key in multiset(SortedNames(ms));
    }
  }

  lemma {:induction false} FoundIsKey(ms: seq<Member>, key: string)
    requires Find(ms, key).Some?
    ensures key in Keys(ms)
  {
    if ms[0].key != key { FoundIsKey(ms[1..], key); }
  }

  lemma AnyOfSound(v: Json, s: Json, ts: seq<Type>)
    requires NodeOf(s) == AnyOf && Valid(v, s) && ts == TypesOf(Children(s))
    requires forall i :: 0 <= i < |ts| && Valid(v, Children(s)[i]) ==> Inhabits(v, ts[i])
    ensures Inhabits(v, Assemble(s, ts))
  {
    AlternativesRead(v, ts);
  }

  lemma AllOfSound(v: Json, s: Json, ts: seq<Type>)
    requires NodeOf(s) == AllOf && Valid(v, s) && ts == TypesOf(Children(s))
    requires forall i :: 0 <= i < |ts| && Valid(v, Children(s)[i]) ==> Inhabits(v, ts[i])
    ensures Inhabits(v, Assemble(s, ts))
  {
    TogetherRead(v, ts);
  }

  lemma EntriesSound(v: Json, s: Json, ts: seq<Type>)
    requires NodeOf(s) == Entries && Valid(v, s) && ts == TypesOf(Children(s))
    requires forall i :: 0 <= i < |ts| && Valid(v, Children(s)[i]) ==> Inhabits(v, ts[i])
    ensures Inhabits(v, Assemble(s, ts))
  {
    EntriesRead(v, s);
    AlternativesRead(v, ts);
  }

  lemma VariantSound(v: Json, s: Json)
    requires NodeOf(s) in {AnyOf, AllOf, Entries} && Valid(v, s)
    requires forall i :: 0 <= i < |Children(s)| ==> Sound(Children(s)[i])
    ensures Inhabits(v, TypeOf(s))
  {
    TypeOfAssembles(s);
    var ts := TypesOf(Children(s));
    forall i | 0 <= i < |ts|
      ensures Valid(v, Children(s)[i]) ==> Inhabits(v, ts[i])
    {
      assert Sound(Children(s)[i]);
    }
    match NodeOf(s) {
      case AnyOf => AnyOfSound(v, s, ts);
      case AllOf => AllOfSound(v, s, ts);
      case Entries => EntriesSound(v, s, ts);
    }
  }

  lemma EnumSound(v: Json, s: Json)
    requires NodeOf(s) == Enum && Valid(v, s)
    ensures Inhabits(v, TypeOf(s))
  {
    TypeOfAssembles(s);
    var values := ItemsOf(Get(s, "enum")).value;
    var i :| 0 <= i < |values| && Same(v, values[i]);
    assert Inhabits(v, LiteralsOf(values)[i]);
    AlternativesRead(v, LiteralsOf(values));
  }

  lemma ListSound(v: Json, s: Json)
    requires NodeOf(s) in {Listed, Tupled, Bare} && Regular(s) && Valid(v, s)
    requires forall i :: 0 <= i < |Children(s)| ==> Sound(Children(s)[i])
    ensures Inhabits(v, TypeOf(s))
  {
    TypeOfAssembles(s);
    if NodeOf(s) == Listed { assert Sound(Children(s)[0]); }
  }

  lemma PropertySound(v: Json, s: Json, ts: seq<Type>, i: nat)
    requires NodeOf(s) == Fields && v.Obj? && ValidObject(v, s) && ts == TypesOf(Children(s))
    requires i < |Names(s)| && Sound(Children(s)[i])
    ensures var p := PropertiesOf(s, ts)[i];
            if Get(v, p.name).Some? then Inhabits(Get(v, p.name).value, p.body) else p.optional
  {
    var name := Names(s)[i];
    NamesExact(s, ts, name);
    assert Children(s)[i] == Get(Properties(s), name).value;
  }

  lemma IndexSound(v: Json, s: Json, ts: seq<Type>, key: string)
    requires NodeOf(s) == Fields && v.Obj? && ValidObject(v, s) && ts == TypesOf(Children(s))
    requires IndexSchema(s).Some? && Sound(Children(s)[|Names(s)|])
    requires Get(v, key).Some? && !Named(PropertiesOf(s, ts), key)
    ensures Inhabits(Get(v, key).value, ts[|Names(s)|])
  {
    NamesExact(s, ts, key);
    assert Children(s)[|Names(s)|] == IndexSchema(s).value;
    assert Valid(Get(v, key).value, IndexSchema(s).value);
  }

  lemma RecordSound(v: Json, s: Json)
    requires NodeOf(s) == Fields && Regular(s) && Valid(v, s)
    requires forall i :: 0 <= i < |Children(s)| ==> Sound(Children(s)[i])
    ensures Inhabits(v, TypeOf(s))
  {
    TypeOfAssembles(s);
    var ts := TypesOf(Children(s));
    var ps := PropertiesOf(s, ts);
    forall i | 0 <= i < |ps|
      ensures if Get(v, ps[i].name).Some? then Inhabits(Get(v, ps[i].name).value, ps[i].body) else ps[i].optional
    {
      PropertySound(v, s, ts, i);
    }
    if IndexSchema(s).Some? {
      forall key | Get(v, key).Some? && !Named(ps, key)
        ensures Inhabits(Get(v, key).value, ts[|Names(s)|])
      {
        IndexSound(v, s, ts, key);
      }
    }
  }

  lemma BasicSound(v: Json, s: Json)
    requires NodeOf(s) == Basics && Valid(v, s)
    ensures Inhabits(v, TypeOf(s))
  {
    TypeOfAssembles(s);
  }

  lemma NodeSound(v: Json, s: Json)
    requires Regular(s) && Valid(v, s)
    requires forall i :: 0 <= i < |Children(s)| ==> Sound(Children(s)[i])
    ensures Inhabits(v, TypeOf(s))
  {
    match NodeOf(s) {
      case Enum => EnumSound(v, s);
      case Fields => RecordSound(v, s);
      case Listed => ListSound(v, s);
      case Bare => ListSound(v, s);
      case AnyOf => VariantSound(v, s);
      case AllOf => VariantSound(v, s);
      case Entries => VariantSound(v, s);
      case Basics => BasicSound(v, s);
      case _ => TypeOfAssembles(s);
    }
  }

  /** Every value a schema admits inhabits the type rendered for it. */
  lemma {:induction false} ValidValuesInhabit(s: Json)
    requires Throughout(s, Regular)
    ensures Sound(s)
    decreases Size(s)
  {
    ChildrenSmaller(s);
    forall i | 0 <= i < |Children(s)|
      ensures Sound(Children(s)[i])
    {
      assert Throughout(Children(s)[i], Regular);
      ValidValuesInhabit(Children(s)[i]);
    }
    forall v | Valid(v, s)
      ensures Inhabits(v, TypeOf(s))
    {
      NodeSound(v, s);
    }
  }

  // ----- Completeness -----

  const Keywords := {"const", "enum", "anyOf", "oneOf", "allOf", "type", "properties", "required",
                     "additionalProperties", "items", "prefixItems"}

  predicate Alone(s: Json, keyword: string) {
    forall key :: key in Keywords && key != keyword ==> Get(s, key).None?
  }

  predicate Shapeless(s: Json) {
    && Get(s, "properties").None? && Get(s, "required").None? && Get(s, "additionalProperties").None?
    && Get(s, "items").None? && Get(s, "prefixItems").None?
  }

  /** Nothing is lost by the keyword the renderer decides on: no further constraint beside it, no
      `oneOf`, `integer` or `additionalProperties: false`, and only declared properties required. */
  predicate Captured(s: Json) {
    match NodeOf(s)
    case Const => Alone(s, "const")
    case Enum => Alone(s, "enum")
    case AnyOf => Alone(s, "anyOf")
    case AllOf => Alone(s, "allOf")
    case Basics => Get(s, "type") != Some(Text("integer")) && (BasicOf(s) == Anything ==> Shapeless(s))
    case Listed => Leading(s) == []
    case Fields =>
      && Get(s, "additionalProperties") != Some(Bool(false))
      && (ItemsOf(Get(s, "required")).Some? ==>
            forall i :: 0 <= i < |ItemsOf(Get(s, "required")).value| ==>
              var name := ItemsOf(Get(s, "required")).value[i]; name.Text? ==> Get(Properties(s), name.s).Some?)
    case _ => true
  }

  lemma LiteralComplete(v: Json, s: Json)
    requires (NodeOf(s) == Const || NodeOf(s) == Enum) && Captured(s) && Inhabits(v, TypeOf(s))
    ensures Valid(v, s)
  {
    TypeOfAssembles(s);
    OnlyKeyword(v, s, if NodeOf(s) == Const then "const" else "enum");
    if NodeOf(s) == Enum {
      var values := ItemsOf(Get(s, "enum")).value;
      AlternativesRead(v, LiteralsOf(values));
      var i :| 0 <= i < |values| && Inhabits(v, LiteralsOf(values)[i]);
      assert Same(v, values[i]);
    }
  }

  /** A keyword that stands alone leaves the others nothing to say. */
  lemma OnlyKeyword(v: Json, s: Json, keyword: string)
    requires s.Obj? && Alone(s, keyword) && keyword in {"const", "enum", "anyOf", "allOf"}
    ensures v.Obj? ==> ValidObject(v, s)
    ensures v.Arr? ==> ValidArray(v, s)
    ensures keyword in {"const", "enum"} ==> ValidVariants(v, s)
    ensures keyword in {"anyOf", "allOf"} ==> ValidLiteral(v, s) && Get(s, "oneOf").None?
    ensures keyword == "anyOf" ==> Get(s, "allOf").None?
    ensures keyword == "allOf" ==> Get(s, "anyOf").None?
  {
    assert forall key :: key in Keywords && key != keyword ==> Get(s, key).None?;
    assert "properties" in Keywords && "required" in Keywords && "additionalProperties" in Keywords;
    assert "items" in Keywords && "prefixItems" in Keywords && "type" in Keywords;
    assert "const" in Keywords && "enum" in Keywords && "anyOf" in Keywords && "oneOf" in Keywords && "allOf" in Keywords;
  }

  lemma AnyOfComplete(v: Json, s: Json, ts: seq<Type>)
    requires NodeOf(s) == AnyOf && Captured(s) && ts == TypesOf(Children(s)) && Inhabits(v, Assemble(s, ts))
    requires forall i :: 0 <= i < |ts| && Inhabits(v, ts[i]) ==> Valid(v, Children(s)[i])
    ensures Valid(v, s)
  {
    AlternativesRead(v, ts);
    OnlyKeyword(v, s, "anyOf");
  }

  lemma AllOfComplete(v: Json, s: Json, ts: seq<Type>)
    requires NodeOf(s) == AllOf && Captured(s) && ts == TypesOf(Children(s)) && Inhabits(v, Assemble(s, ts))
    requires forall i :: 0 <= i < |ts| && Inhabits(v, ts[i]) ==> Valid(v, Children(s)[i])
    ensures Valid(v, s)
  {
    TogetherRead(v, ts);
    OnlyKeyword(v, s, "allOf");
  }

  lemma EntriesComplete(v: Json, s: Json, ts: seq<Type>)
    requires NodeOf(s) == Entries && Captured(s) && ts == TypesOf(Children(s)) && Inhabits(v, Assemble(s, ts))
    requires forall i :: 0 <= i < |ts| && Inhabits(v, ts[i]) ==> Valid(v, Children(s)[i])
    ensures Valid(v, s)
  {
    EntriesRead(v, s);
    AlternativesRead(v, ts);
  }

  lemma VariantComplete(v: Json, s: Json)
    requires NodeOf(s) in {AnyOf, AllOf, Entries} && Captured(s) && Inhabits(v, TypeOf(s))
    requires forall i :: 0 <= i < |Children(s)| ==> Complete(Children(s)[i])
    ensures Valid(v, s)
  {
    TypeOfAssembles(s);
    var ts := TypesOf(Children(s));
    forall i | 0 <= i < |ts|
      ensures Inhabits(v, ts[i]) ==> Valid(v, Children(s)[i])
    {
      assert Complete(Children(s)[i]);
    }
    match NodeOf(s) {
      case AnyOf => AnyOfComplete(v, s, ts);
      case AllOf => AllOfComplete(v, s, ts);
      case Entries => EntriesComplete(v, s, ts);
    }
  }

  lemma BasicComplete(v: Json, s: Json)
    requires NodeOf(s) == Basics && Captured(s) && Inhabits(v, BasicOf(s))
    ensures Valid(v, s)
  {
    assert ValidVariants(v, s);
    assert ValidLiteral(v, s);
    if BasicOf(s) == Anything {
      assert v.Obj? ==> ValidObject(v, s);
      assert v.Arr? ==> ValidArray(v, s);
    }
  }

  lemma ListComplete(v: Json, s: Json)
    requires NodeOf(s) in {Listed, Tupled, Bare} && Captured(s) && Inhabits(v, TypeOf(s))
    requires forall i :: 0 <= i < |Children(s)| ==> Complete(Children(s)[i])
    ensures Valid(v, s)
  {
    TypeOfAssembles(s);
    if NodeOf(s) == Listed { assert Complete(Children(s)[0]); }
  }

  lemma RecordComplete(v: Json, s: Json)
    requires NodeOf(s) == Fields && Captured(s) && Inhabits(v, TypeOf(s))
    requires forall i :: 0 <= i < |Children(s)| ==> Complete(Children(s)[i])
    ensures Valid(v, s)
  {
    TypeOfAssembles(s);
    var ts := TypesOf(Children(s));
    var ps := PropertiesOf(s, ts);
    forall key | Get(Properties(s), key).Some?
      ensures Get(v, key).Some? ==> Valid(Get(v, key).value, Get(Properties(s), key).value)
      ensures Required(s, key) ==> Get(v, key).Some?
    {
      NamesExact(s, ts, key);
      var i :| 0 <= i < |Names(s)| && Names(s)[i] == key;
      assert ps[i].name == key && Children(s)[i] == Get(Properties(s), key).value;
      assert Complete(Children(s)[i]);
    }
    forall key | Get(v, key).Some? && Get(Properties(s), key).None? && Get(s, "additionalProperties").Some?
      ensures Valid(Get(v, key).value, Get(s, "additionalProperties").value)
    {
      NamesExact(s, ts, key);
      assert Children(s)[|Names(s)|] == IndexSchema(s).value;
      assert Complete(Children(s)[|Names(s)|]);
    }
  }

  lemma NodeComplete(v: Json, s: Json)
    requires Captured(s) && Inhabits(v, TypeOf(s))
    requires forall i :: 0 <= i < |Children(s)| ==> Complete(Children(s)[i])
    ensures Valid(v, s)
  {
    match NodeOf(s) {
      case Trivial => TypeOfAssembles(s);
      case Const => LiteralComplete(v, s);
      case Enum => LiteralComplete(v, s);
      case Basics => TypeOfAssembles(s); BasicComplete(v, s);
      case Fields => RecordComplete(v, s);
      case AnyOf => VariantComplete(v, s);
      case AllOf => VariantComplete(v, s);
      case Entries => VariantComplete(v, s);
      case _ => ListComplete(v, s);
    }
  }

  /** Nothing but valid values inhabits the type rendered for a schema. */
  lemma {:induction false} InhabitantsAreValid(s: Json)
    requires Throughout(s, Captured)
    ensures Complete(s)
    decreases Size(s)
  {
    ChildrenSmaller(s);
    forall i | 0 <= i < |Children(s)|
      ensures Complete(Children(s)[i])
    {
      assert Throughout(Children(s)[i], Captured);
      InhabitantsAreValid(Children(s)[i]);
    }
    forall v | Inhabits(v, TypeOf(s))
      ensures Valid(v, s)
    {
      NodeComplete(v, s);
    }
  }

  // ----- What the text says -----

  /** Without references the text is that of a type every valid value inhabits, and no other value
      where nothing is lost. A text that is too long gives way to the type of all values. */
  lemma TextMeansSchema(c: Config, s: Json, maxChars: Option<nat>)
    requires Distinctive(c) && ReferenceFree(s) && Throughout(s, Regular)
    ensures var t := if maxChars.Some? && |Print(c, TypeOf(s))| > maxChars.value then Anything else TypeOf(s);
            && SchemaToType(c, s, maxChars) == Some(Print(c, t))
            && (forall v :: Valid(v, s) ==> Inhabits(v, t))
            && (Throughout(s, Captured) && t == TypeOf(s) ==> forall v :: Valid(v, s) <==> Inhabits(v, t))
  {
    RendersItsType(c, {}, 0, s);
    ValidValuesInhabit(s);
    if Throughout(s, Captured) { InhabitantsAreValid(s); }
  }

  /** A reference renders the type of its target and costs one expansion, unless it is being expanded
      already, the budget is used up or nothing is found: then every value inhabits what is rendered. */
  lemma ReferenceRenders(c: Config, resolving: set<string>, n: nat, s: Json, ref: string)
    requires n <= c.limit && Distinctive(c) && Get(s, "$ref") == Some(Text(ref))
    ensures ref in resolving || n == c.limit ==> ToType(c, resolving, n, s) == Rendered(Some(Print(c, Anything)), n)
    ensures Resolve(c.decode, ref, c.root) == Absent ==> ToType(c, resolving, n, s) == Rendered(Some(Print(c, Anything)), n)
    ensures forall target :: ref !in resolving && n < c.limit && Resolve(c.decode, ref, c.root) == Found(target) && ReferenceFree(target)
              ==> ToType(c, resolving, n, s) == Rendered(Some(Print(c, TypeOf(target))), n + 1)
  {
    forall target | ref !in resolving && n < c.limit && Resolve(c.decode, ref, c.root) == Found(target) && ReferenceFree(target)
      ensures ToType(c, resolving, n, s) == Rendered(Some(Print(c, TypeOf(target))), n + 1)
    {
      RendersItsType(c, resolving + {ref}, n + 1, target);
    }
  }

  // ----- Where soundness fails -----

  /** Without `type`, an object or array schema admits `null` while its type does not. */
  lemma TypelessAdmitsNull(s: Json)
    requires NodeOf(s) in {Fields, Listed, Bare} && Get(s, "type").None?
    ensures Valid(Null, s) && !Inhabits(Null, TypeOf(s))
  {
    TypeOfAssembles(s);
  }

  /** A tuple schema admits the empty array; its type asks for every element. */
  lemma TupleAdmitsEmpty(s: Json)
    requires NodeOf(s) == Tupled
    ensures Valid(Arr([]), s) && !Inhabits(Arr([]), TypeOf(s))
  {
    TypeOfAssembles(s);
  }

  ghost predicate AdmitsSome(s: Json) {
    exists x :: Valid(x, s)
  }

  ghost predicate Satisfiable(ss: seq<Json>) {
    forall k :: 0 <= k < |ss| ==> AdmitsSome(ss[k])
  }

  lemma Witnesses(ss: seq<Json>) returns (xs: seq<Json>)
    requires Satisfiable(ss)
    ensures |xs| == |ss| && forall k :: 0 <= k < |ss| ==> Valid(xs[k], ss[k])
  {
    xs := seq(|ss|, k requires 0 <= k < |ss| => assert AdmitsSome(ss[k]); var x :| Valid(x, ss[k]); x);
  }

  /** The first leading element schema that admits a value outside `items`' type spoils the whole. */
  ghost predicate LeadingFits(s: Json)
    requires NodeOf(s) == Listed
  {
    forall k, x :: 0 <= k < |Leading(s)| && Satisfiable(Leading(s)[..k]) && Valid(x, Leading(s)[k]) ==> Inhabits(x, TypeOf(Get(s, "items").value))
  }

  lemma ListedReads(v: Json, s: Json)
    requires NodeOf(s) == Listed && Get(s, "type").Some?
    ensures Valid(v, s) <==> v.Arr? && ValidArray(v, s)
    ensures TypeOf(s) == ListOf(TypeOf(Get(s, "items").value))
  {
    TypeOfAssembles(s);
  }

  /** A value of the k-th leading schema, after witnesses for the ones before it. */
  lemma LeadingNecessary(s: Json, k: nat, x: Json)
    requires NodeOf(s) == Listed && Get(s, "type").Some? && Sound(s)
    requires k < |Leading(s)| && Satisfiable(Leading(s)[..k]) && Valid(x, Leading(s)[k])
    ensures Inhabits(x, TypeOf(Get(s, "items").value))
  {
    var xs := Witnesses(Leading(s)[..k]);
    var v := Arr(xs + [x]);
    ListedReads(v, s);
    assert forall j :: 0 <= j < |v.items| ==> Valid(v.items[j], Leading(s)[j]);
    assert ValidArray(v, s);
    assert v.items[k] == x;
  }

  lemma LeadingSuffices(s: Json, v: Json, k: nat)
    requires NodeOf(s) == Listed && Get(s, "type").Some? && Sound(Get(s, "items").value) && LeadingFits(s)
    requires Valid(v, s) && v.Arr? && k < |v.items|
    ensures Inhabits(v.items[k], TypeOf(Get(s, "items").value))
  {
    ListedReads(v, s);
    if k < |Leading(s)| {
      var before := Leading(s)[..k];
      forall j | 0 <= j < |before|
        ensures AdmitsSome(before[j])
      {
        assert Valid(v.items[j], before[j]);
      }
      assert Satisfiable(before);
    }
  }

  /** `items` beside `prefixItems`: the rendered `Array<...>` forgets the leading elements. */
  lemma LeadingExact(s: Json)
    requires NodeOf(s) == Listed && Get(s, "type").Some? && Sound(Get(s, "items").value)
    ensures Sound(s) <==> LeadingFits(s)
  {
    if Sound(s) {
      forall k, x | 0 <= k < |Leading(s)| && Satisfiable(Leading(s)[..k]) && Valid(x, Leading(s)[k])
        ensures Inhabits(x, TypeOf(Get(s, "items").value))
      {
        LeadingNecessary(s, k, x);
      }
    }
    if LeadingFits(s) {
      forall v | Valid(v, s)
        ensures Inhabits(v, TypeOf(s))
      {
        ListedReads(v, s);
        forall k | 0 <= k < |v.items|
          ensures Inhabits(v.items[k], TypeOf(Get(s, "items").value))
        {
          LeadingSuffices(s, v, k);
        }
      }
    }
  }
}
