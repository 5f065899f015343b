/** The renderer as the code runs it: one mutable context, shared by the whole recursion, whose
    expansion counter only grows and whose set of references on the path is restored on return. */
module SchemaContexts {
  import opened Options
  import opened JsonValues
  import opened JsonPointer
  import opened TypeRender

  function Prepend(done: seq<string>, rest: Texts): Texts {
    Texts(if rest.all.Some? then Some(done + rest.all.value) else None, rest.expansions)
  }

  lemma PrependNothing(t: Texts)
    ensures Prepend([], t) == t
  {
    if t.all.Some? {
      assert [] + t.all.value == t.all.value;
    }
  }

  /** One round of the loop over a keyword's children. */
  lemma MapTypesStep(c: Config, resolving: set<string>, n: nat, items: seq<Json>, k: nat, bound: nat, done: seq<string>)
    requires n <= c.limit && k < |items| && forall i :: 0 <= i < |items| ==> Size(items[i]) < bound
    ensures var r := ToType(c, resolving, n, items[k]);
            Prepend(done, MapTypes(c, resolving, n, items[k..], bound))
            == if r.text.None? then Texts(None, r.expansions)
               else Prepend(done + [r.text.value], MapTypes(c, resolving, r.expansions, items[k + 1..], bound))
  {
    assert items[k..][0] == items[k] && items[k..][1..] == items[k + 1..];
    var r := ToType(c, resolving, n, items[k]);
    if r.text.Some? {
      var rest := MapTypes(c, resolving, r.expansions, items[k + 1..], bound);
      if rest.all.Some? {
        assert done + ([r.text.value] + rest.all.value) == (done + [r.text.value]) + rest.all.value;
      }
    }
  }

  class SchemaContext {
    const config: Config
    var resolving: set<string>
    var expansions: nat

    constructor (config: Config)
      ensures this.config == config && resolving == {} && expansions == 0
    {
      this.config := config;
      resolving, expansions := {}, 0;
    }

    /** `None` is the exception of a malformed reference; the path is restored even then. */
    method Render(schema: Json) returns (text: Option<string>)
      requires expansions <= config.limit
      modifies this
      ensures resolving == old(resolving) && old(expansions) <= expansions <= config.limit
      ensures Rendered(text, expansions) == ToType(config, old(resolving), old(expansions), schema)
      decreases config.limit - expansions, Size(schema), 3, 0
    {
      if schema.Bool? { return Some(if schema.b then "unknown" else "never"); }
      if !schema.Obj? { return Some("unknown"); }
      var ref := Get(schema, "$ref");
      if ref.Some? && ref.value.Text? { text := RenderReference(ref.value.s); }
      else { text := RenderPlain(schema); }
    }

    method RenderReference(ref: string) returns (text: Option<string>)
      requires expansions <= config.limit
      modifies this
      ensures resolving == old(resolving) && old(expansions) <= expansions <= config.limit
      ensures Rendered(text, expansions) == Reference(config, old(resolving), old(expansions), ref)
      decreases config.limit - expansions, 0, 0, 0
    {
      if ref in resolving || expansions >= config.limit { return Some("unknown"); }
      var target := ResolveRef(config.decode, ref, config.root);
      if target.Malformed? { return None; }
      if target.Absent? { return Some("unknown"); }
      expansions := expansions + 1;
      resolving := resolving + {ref};
      text := Render(target.schema);
      resolving := resolving - {ref};
    }

    /** The children of a keyword, left to right. */
    method RenderAll(items: seq<Json>, ghost bound: nat) returns (texts: Option<seq<string>>)
      requires expansions <= config.limit && forall i :: 0 <= i < |items| ==> Size(items[i]) < bound
      modifies this
      ensures resolving == old(resolving) && old(expansions) <= expansions <= config.limit
      ensures Texts(texts, expansions) == MapTypes(config, old(resolving), old(expansions), items, bound)
      ensures texts.Some? ==> |texts.value| == |items|
      decreases config.limit - expansions, bound, 0, |items|
    {
      var done: seq<string> := [];
      var n := 0;
      ghost var spec := MapTypes(config, resolving, expansions, items, bound);
      assert items[0..] == items;
      PrependNothing(spec);
      while n < |items|
        invariant n == |done| <= |items| && resolving == old(resolving) && old(expansions) <= expansions <= config.limit
        invariant spec == Prepend(done, MapTypes(config, resolving, expansions, items[n..], bound))
      {
        MapTypesStep(config, resolving, expansions, items, n, bound, done);
        var text := Render(items[n]);
        if text.None? { return None; }
        done := done + [text.value];
        n := n + 1;
      }
      assert items[n..] == [] && done + [] == done;
      return Some(done);
    }

    method RenderPlain(schema: Json) returns (text: Option<string>)
      requires expansions <= config.limit && schema.Obj?
      modifies this
      ensures resolving == old(resolving) && old(expansions) <= expansions <= config.limit
      ensures Rendered(text, expansions) == Plain(config, old(resolving), old(expansions), schema)
      decreases config.limit - expansions, Size(schema), 2, 0
    {
      SubschemasSmaller(schema);
      if Get(schema, "const").Some? { return Some(config.stringify(Get(schema, "const").value)); }
      if ItemsOf(Get(schema, "enum")).Some? { return Some(Union(Literals(config, ItemsOf(Get(schema, "enum")).value))); }
      if Variants(schema).Some? {
        var texts := RenderAll(Variants(schema).value, Size(schema));
        return if texts.Some? then Some(Union(texts.value)) else None;
      }
      if ItemsOf(Get(schema, "allOf")).Some? {
        var texts := RenderAll(ItemsOf(Get(schema, "allOf")).value, Size(schema));
        return if texts.Some? then Some(Intersection(texts.value)) else None;
      }
      if TypeEntries(schema).Some? {
        var texts := RenderAll(PerEntry(schema, TypeEntries(schema).value), Size(schema));
        return if texts.Some? then Some(Union(texts.value)) else None;
      }
      var shape := ShapeOf(schema);
      match shape {
        case Atom(atom) => text := Some(atom);
        case List => text := RenderArray(schema);
        case Record => text := RenderObject(schema);
      }
    }

    method RenderArray(schema: Json) returns (text: Option<string>)
      requires expansions <= config.limit && schema.Obj?
      modifies this
      ensures resolving == old(resolving) && old(expansions) <= expansions <= config.limit
      ensures Rendered(text, expansions) == ArrayType(config, old(resolving), old(expansions), schema)
      decreases config.limit - expansions, Size(schema), 1, 0
    {
      var items := Get(schema, "items");
      if items.Some? && !items.value.Arr? {
        GetSmaller(schema, "items");
        var item := Render(items.value);
        return if item.Some? then Some("Array<" + item.value + ">") else None;
      }
      if TupleItems(schema) != [] {
        SubschemasSmaller(schema);
        var texts := RenderAll(TupleItems(schema), Size(schema));
        return if texts.Some? then Some(Tuple(texts.value)) else None;
      }
      return Some("unknown[]");
    }

    method RenderObject(schema: Json) returns (text: Option<string>)
      requires expansions <= config.limit && schema.Obj?
      modifies this
      ensures resolving == old(resolving) && old(expansions) <= expansions <= config.limit
      ensures Rendered(text, expansions) == ObjectType(config, old(resolving), old(expansions), schema)
      decreases config.limit - expansions, Size(schema), 1, 0
    {
      PropertiesSmaller(schema);
      var names := Names(schema);
      var texts := RenderAll(Values(Properties(schema), names), Size(schema));
      if texts.None? { return None; }
      var members := MemberTexts(config, schema, names, texts.value);
      var extra := RenderAdditional(schema);
      if extra.None? { return None; }
      return Some(Closing(config, schema, members + extra.value));
    }

    method RenderAdditional(schema: Json) returns (members: Option<seq<string>>)
      requires expansions <= config.limit && schema.Obj?
      modifies this
      ensures resolving == old(resolving) && old(expansions) <= expansions <= config.limit
      ensures Texts(members, expansions) == Additional(config, old(resolving), old(expansions), schema)
      decreases config.limit - expansions, Size(schema), 0, 0
    {
      var additional := Get(schema, "additionalProperties");
      if additional.None? { return Some(if Names(schema) == [] then Index("unknown") else []); }
      if additional.value == Bool(false) { return Some([]); }
      GetSmaller(schema, "additionalProperties");
      var text := Render(additional.value);
      return if text.Some? then Some(Index(text.value)) else None;
    }
  }

  /** Render a schema in a context of its own, with the code's limit. */
  method RenderSchema(config: Config, schema: Json, maxChars: Option<nat>) returns (text: Option<string>)
    requires config.limit == MaxRefExpansions
    ensures text == SchemaToType(config, schema, maxChars)
    ensures text.Some? && maxChars.Some? ==> |text.value| <= maxChars.value || text.value == "unknown"
  {
    var context := new SchemaContext(config);
    text := context.Render(schema);
    if text.Some? && maxChars.Some? && |text.value| > maxChars.value { text := Some("unknown"); }
  }
}
