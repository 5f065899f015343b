/** A schema without references is rendered as the text of its type, whatever the path and the
    number of expansions so far. */
module SchemaText {
  import opened Options
  import opened JsonValues
  import opened JsonPointer
  import opened TypeRender
  import opened SchemaTypes

  function TypesOf(items: seq<Json>): seq<Type> {
    seq(|items|, i requires 0 <= i < |items| => TypeOf(items[i]))
  }

  lemma TypeOfAssembles(s: Json)
    ensures |TypesOf(Children(s))| == |Children(s)| && TypeOf(s) == Assemble(s, TypesOf(Children(s)))
  {
    assert TypesOf(Children(s)) == seq(|Children(s)|, i requires 0 <= i < |Children(s)| => TypeOf(Children(s)[i]));
  }

  lemma {:induction false} InformativeNormal(ts: seq<Type>)
    requires forall t :: t in ts ==> Normal(t)
    ensures forall t :: t in Informative(ts) ==> t != Anything && Normal(t)
  {
    if ts != [] {
      InformativeNormal(ts[1..]);
    }
  }

  lemma AlternativesNormal(ts: seq<Type>)
    requires forall t :: t in ts ==> Normal(t)
    ensures Normal(Alternatives(ts)) && Normal(Together(ts))
  {
    InformativeNormal(ts);
    forall i | 0 <= i < |Informative(ts)|
      ensures Informative(ts)[i] != Anything && Normal(Informative(ts)[i])
    {
      assert Informative(ts)[i] in Informative(ts);
    }
  }

  lemma {:induction false} TypesAreNormal(s: Json)
    ensures Normal(TypeOf(s))
    decreases Size(s)
  {
    ChildrenSmaller(s);
    TypeOfAssembles(s);
    var ts := TypesOf(Children(s));
    forall t | t in ts
      ensures Normal(t)
    {
      var i :| 0 <= i < |ts| && t == ts[i];
      TypesAreNormal(Children(s)[i]);
    }
    AlternativesNormal(ts);
    if NodeOf(s) == Enum {
      AlternativesNormal(LiteralsOf(ItemsOf(Get(s, "enum")).value));
    }
  }

  // ----- Unions and intersections -----

  lemma UnknownAmong(c: Config, ts: seq<Type>)
    requires Distinctive(c) && forall t :: t in ts ==> Normal(t)
    ensures "unknown" in PrintAll(c, ts) <==> Anything in ts
  {
    forall i | 0 <= i < |ts|
      ensures PrintAll(c, ts)[i] == "unknown" <==> ts[i] == Anything
    {
      UnknownText(c, ts[i]);
    }
    if Anything in ts {
      var i :| 0 <= i < |ts| && ts[i] == Anything;
      assert PrintAll(c, ts)[i] == "unknown";
    }
  }

  lemma UnionPrints(c: Config, ts: seq<Type>)
    requires Distinctive(c) && forall t :: t in ts ==> Normal(t)
    ensures Union(PrintAll(c, ts)) == Print(c, Alternatives(ts))
  {
    UnknownAmong(c, ts);
    UniqueMeaning(PrintAll(c, ts));
    if ts != [] {
      assert PrintAll(c, ts)[0] in PrintAll(c, ts);
    }
  }

  lemma {:induction false} KnownPrints(c: Config, ts: seq<Type>)
    requires Distinctive(c) && forall t :: t in ts ==> Normal(t)
    ensures Known(PrintAll(c, ts)) == PrintAll(c, Informative(ts))
  {
    if ts != [] {
      UnknownText(c, ts[0]);
      KnownPrints(c, ts[1..]);
      assert PrintAll(c, ts)[1..] == PrintAll(c, ts[1..]);
      var rest := Informative(ts[1..]);
      assert PrintAll(c, [ts[0]] + rest) == [Print(c, ts[0])] + PrintAll(c, rest);
      assert [] + PrintAll(c, rest) == PrintAll(c, rest) && [] + rest == rest;
    }
  }

  lemma IntersectionPrints(c: Config, ts: seq<Type>)
    requires Distinctive(c) && forall t :: t in ts ==> Normal(t)
    ensures Intersection(PrintAll(c, ts)) == Print(c, Together(ts))
  {
    KnownPrints(c, ts);
    var parts := Informative(ts);
    assert Parenthesised(PrintAll(c, parts)) == seq(|parts|, i requires 0 <= i < |parts| => Wrapped(Print(c, parts[i])));
  }

  // ----- Children -----

  ghost predicate Prints(c: Config, resolving: set<string>, n: nat, s: Json)
    requires n <= c.limit
  {
    ToType(c, resolving, n, s) == Rendered(Some(Print(c, TypeOf(s))), n)
  }

  lemma PrintAllCons(c: Config, items: seq<Json>)
    ensures PrintAll(c, TypesOf(items))
         == if items == [] then [] else [Print(c, TypeOf(items[0]))] + PrintAll(c, TypesOf(items[1..]))
  {
  }

  lemma {:induction false} AllPrint(c: Config, resolving: set<string>, n: nat, items: seq<Json>, bound: nat)
    requires n <= c.limit && forall i :: 0 <= i < |items| ==> Size(items[i]) < bound && Prints(c, resolving, n, items[i])
    ensures MapTypes(c, resolving, n, items, bound) == Texts(Some(PrintAll(c, TypesOf(items))), n)
    decreases |items|
  {
    PrintAllCons(c, items);
    if items != [] {
      assert Prints(c, resolving, n, items[0]);
      AllPrint(c, resolving, n, items[1..], bound);
    }
  }

  lemma MembersPrint(c: Config, s: Json, ts: seq<Type>)
    requires |ts| == |Names(s)|
    ensures MemberTexts(c, s, Names(s), PrintAll(c, ts)) == PrintProperties(c, PropertiesOf(s, ts))
  {
    forall i | 0 <= i < |ts|
      ensures MemberTexts(c, s, Names(s), PrintAll(c, ts))[i] == PrintProperties(c, PropertiesOf(s, ts))[i]
    {
      assert "?" + ": " == "?: " && "" + ": " == ": ";
    }
  }

  lemma IndexPrints(c: Config, resolving: set<string>, n: nat, s: Json)
    requires n <= c.limit && NodeOf(s) == Fields && (IndexSchema(s).Some? ==> Prints(c, resolving, n, IndexSchema(s).value))
    ensures Additional(c, resolving, n, s)
         == Texts(Some(if IndexSchema(s).Some? then Index(Print(c, TypeOf(IndexSchema(s).value))) else []), n)
  {
  }

  lemma FieldTexts(c: Config, resolving: set<string>, n: nat, s: Json, ts: seq<Type>)
    requires n <= c.limit && NodeOf(s) == Fields && ts == TypesOf(Children(s))
    requires forall i :: 0 <= i < |Names(s)| ==> Prints(c, resolving, n, Children(s)[i])
    ensures var values := Values(Properties(s), Names(s));
            && (forall i :: 0 <= i < |values| ==> Size(values[i]) < Size(s))
            && MapTypes(c, resolving, n, values, Size(s)) == Texts(Some(PrintAll(c, TypesOf(values))), n)
            && MemberTexts(c, s, Names(s), PrintAll(c, TypesOf(values))) == PrintProperties(c, PropertiesOf(s, ts))
  {
    var values := Values(Properties(s), Names(s));
    PropertiesSmaller(s);
    forall i | 0 <= i < |values|
      ensures Prints(c, resolving, n, values[i])
    {
      assert values[i] == Children(s)[i];
    }
    AllPrint(c, resolving, n, values, Size(s));
    MembersPrint(c, s, TypesOf(values));
    assert PropertiesOf(s, TypesOf(values)) == PropertiesOf(s, ts);
  }

  lemma IndexText(c: Config, resolving: set<string>, n: nat, s: Json, ts: seq<Type>)
    requires n <= c.limit && NodeOf(s) == Fields && ts == TypesOf(Children(s))
    requires forall i :: |Names(s)| <= i < |Children(s)| ==> Prints(c, resolving, n, Children(s)[i])
    ensures Additional(c, resolving, n, s)
         == Texts(Some(if IndexSchema(s).Some? then ["[key: string]: " + Print(c, ts[|Names(s)|]) + ";"] else []), n)
  {
    if IndexSchema(s).Some? {
      assert Children(s)[|Names(s)|] == IndexSchema(s).value;
    }
    IndexPrints(c, resolving, n, s);
  }

  lemma RecordText(c: Config, s: Json, ts: seq<Type>, members: seq<string>)
    requires NodeOf(s) == Fields && |ts| == |Children(s)|
    requires members == PrintProperties(c, PropertiesOf(s, ts))
                        + (if IndexSchema(s).Some? then ["[key: string]: " + Print(c, ts[|Names(s)|]) + ";"] else [])
    ensures Closing(c, s, members) == Print(c, Assemble(s, ts))
  {
    var ps := PropertiesOf(s, ts);
    assert seq(|ps|, i requires 0 <= i < |ps| => ps[i].name) == Names(s);
  }

  lemma RecordPrints(c: Config, resolving: set<string>, n: nat, s: Json)
    requires n <= c.limit && NodeOf(s) == Fields
    requires forall i :: 0 <= i < |Children(s)| ==> Prints(c, resolving, n, Children(s)[i])
    ensures ObjectType(c, resolving, n, s) == Rendered(Some(Print(c, TypeOf(s))), n)
  {
    TypeOfAssembles(s);
    var ts := TypesOf(Children(s));
    FieldTexts(c, resolving, n, s, ts);
    IndexText(c, resolving, n, s, ts);
    RecordText(c, s, ts, PrintProperties(c, PropertiesOf(s, ts)) + Additional(c, resolving, n, s).all.value);
  }

  lemma TupleText(c: Config, resolving: set<string>, n: nat, s: Json, types: seq<string>)
    requires n <= c.limit && NodeOf(s) == Tupled
    requires forall i :: 0 <= i < |Leading(s)| ==> Size(Leading(s)[i]) < Size(s)
    requires MapTypes(c, resolving, n, Leading(s), Size(s)) == Texts(Some(types), n)
    ensures ArrayType(c, resolving, n, s) == Rendered(Some("[" + Join(types, ", ") + "]"), n)
  {
    assert TupleItems(s) == Leading(s) && Leading(s) != [];
  }

  lemma TuplePrints(c: Config, resolving: set<string>, n: nat, s: Json)
    requires n <= c.limit && NodeOf(s) == Tupled
    requires forall i :: 0 <= i < |Children(s)| ==> Prints(c, resolving, n, Children(s)[i])
    ensures ArrayType(c, resolving, n, s) == Rendered(Some(Print(c, TypeOf(s))), n)
  {
    assert Children(s) == Leading(s);
    ChildrenSmaller(s);
    AllPrint(c, resolving, n, Leading(s), Size(s));
    TupleText(c, resolving, n, s, PrintAll(c, TypesOf(Leading(s))));
    TypeOfAssembles(s);
  }

  lemma ListPrints(c: Config, resolving: set<string>, n: nat, s: Json)
    requires n <= c.limit && (NodeOf(s) == Listed || NodeOf(s) == Bare)
    requires forall i :: 0 <= i < |Children(s)| ==> Prints(c, resolving, n, Children(s)[i])
    ensures ArrayType(c, resolving, n, s) == Rendered(Some(Print(c, TypeOf(s))), n)
  {
    TypeOfAssembles(s);
    if NodeOf(s) == Listed {
      assert Prints(c, resolving, n, Children(s)[0]);
    }
  }

  lemma ChildTypesNormal(s: Json)
    ensures forall t :: t in TypesOf(Children(s)) ==> Normal(t)
  {
    forall t | t in TypesOf(Children(s))
      ensures Normal(t)
    {
      var i :| 0 <= i < |Children(s)| && t == TypesOf(Children(s))[i];
      TypesAreNormal(Children(s)[i]);
    }
  }

  lemma AlternativesPrint(c: Config, resolving: set<string>, n: nat, s: Json, ts: seq<Type>)
    requires n <= c.limit && (NodeOf(s) == AnyOf || NodeOf(s) == Entries) && ts == TypesOf(Children(s))
    requires forall i :: 0 <= i < |Children(s)| ==> Size(Children(s)[i]) < Size(s)
    requires MapTypes(c, resolving, n, Children(s), Size(s)) == Texts(Some(PrintAll(c, ts)), n)
    ensures Plain(c, resolving, n, s) == Rendered(Some(Union(PrintAll(c, ts))), n)
  {
  }

  lemma PartsPrint(c: Config, resolving: set<string>, n: nat, s: Json, ts: seq<Type>)
    requires n <= c.limit && NodeOf(s) == AllOf && ts == TypesOf(Children(s))
    requires forall i :: 0 <= i < |Children(s)| ==> Size(Children(s)[i]) < Size(s)
    requires MapTypes(c, resolving, n, Children(s), Size(s)) == Texts(Some(PrintAll(c, ts)), n)
    ensures Plain(c, resolving, n, s) == Rendered(Some(Intersection(PrintAll(c, ts))), n)
  {
  }

  lemma VariantsPrint(c: Config, resolving: set<string>, n: nat, s: Json)
    requires n <= c.limit && Distinctive(c) && NodeOf(s) in {AnyOf, AllOf, Entries}
    requires forall i :: 0 <= i < |Children(s)| ==> Prints(c, resolving, n, Children(s)[i])
    ensures Plain(c, resolving, n, s) == Rendered(Some(Print(c, TypeOf(s))), n)
  {
    TypeOfAssembles(s);
    ChildrenSmaller(s);
    ChildTypesNormal(s);
    var ts := TypesOf(Children(s));
    AllPrint(c, resolving, n, Children(s), Size(s));
    if NodeOf(s) == AllOf {
      PartsPrint(c, resolving, n, s, ts);
      IntersectionPrints(c, ts);
    } else {
      AlternativesPrint(c, resolving, n, s, ts);
      UnionPrints(c, ts);
    }
  }

  lemma EnumPrints(c: Config, resolving: set<string>, n: nat, s: Json)
    requires n <= c.limit && Distinctive(c) && NodeOf(s) == Enum
    ensures Plain(c, resolving, n, s) == Rendered(Some(Print(c, TypeOf(s))), n)
  {
    TypeOfAssembles(s);
    var values := ItemsOf(Get(s, "enum")).value;
    assert Literals(c, values) == PrintAll(c, LiteralsOf(values));
    UnionPrints(c, LiteralsOf(values));
  }

  lemma NodePrints(c: Config, resolving: set<string>, n: nat, s: Json)
    requires n <= c.limit && Distinctive(c) && s.Obj?
    requires forall i :: 0 <= i < |Children(s)| ==> Prints(c, resolving, n, Children(s)[i])
    ensures Plain(c, resolving, n, s) == Rendered(Some(Print(c, TypeOf(s))), n)
  {
    match NodeOf(s) {
      case Const => TypeOfAssembles(s);
      case Enum => EnumPrints(c, resolving, n, s);
      case Basics => TypeOfAssembles(s);
      case Fields => RecordPrints(c, resolving, n, s);
      case Listed => ListPrints(c, resolving, n, s);
      case Tupled => TuplePrints(c, resolving, n, s);
      case Bare => ListPrints(c, resolving, n, s);
      case _ => VariantsPrint(c, resolving, n, s);
    }
  }

  /** The renderer's text is the type's: no expansion is counted, nothing raises. */
  lemma {:induction false} RendersItsType(c: Config, resolving: set<string>, n: nat, s: Json)
    requires n <= c.limit && Distinctive(c) && ReferenceFree(s)
    ensures ToType(c, resolving, n, s) == Rendered(Some(Print(c, TypeOf(s))), n)
    decreases Size(s)
  {
    ChildrenSmaller(s);
    forall i | 0 <= i < |Children(s)|
      ensures Prints(c, resolving, n, Children(s)[i])
    {
      assert Throughout(Children(s)[i], NoReference);
      RendersItsType(c, resolving, n, Children(s)[i]);
    }
    if s.Obj? {
      NodePrints(c, resolving, n, s);
    } else {
      TypeOfAssembles(s);
    }
  }
}
