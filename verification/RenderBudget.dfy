/** The expansion limit is only a cut-off: a rendering that stayed below its limit is the rendering
    under every other budget it stays below, from any starting count. */
module RenderBudget {
  import opened Options
  import opened JsonValues
  import opened JsonPointer
  import opened TypeRender

  /** Two configurations that differ in their limit only. */
  ghost predicate SameDocument(c: Config, d: Config) {
    d == c.(limit := d.limit)
  }

  /** Expansions `n` to `k` under `c` correspond to `m` onwards under `d`, both below the limit. */
  ghost predicate Roomy(c: Config, d: Config, n: nat, m: nat, k: nat) {
    SameDocument(c, d) && n <= k < c.limit && m + (k - n) < d.limit
  }

  lemma {:induction false} ToTypeShift(c: Config, d: Config, resolving: set<string>, n: nat, m: nat, schema: Json)
    requires n <= c.limit && Roomy(c, d, n, m, ToType(c, resolving, n, schema).expansions)
    ensures var r := ToType(c, resolving, n, schema);
            ToType(d, resolving, m, schema) == Rendered(r.text, m + (r.expansions - n))
    decreases c.limit - n, Size(schema), 3, 0
  {
    if schema.Obj? {
      var ref := Get(schema, "$ref");
      if ref.Some? && ref.value.Text? {
        ReferenceShift(c, d, resolving, n, m, ref.value.s);
      } else {
        PlainShift(c, d, resolving, n, m, schema);
      }
    }
  }

  lemma {:induction false} ReferenceShift(c: Config, d: Config, resolving: set<string>, n: nat, m: nat, ref: string)
    requires n <= c.limit && Roomy(c, d, n, m, Reference(c, resolving, n, ref).expansions)
    ensures var r := Reference(c, resolving, n, ref);
            Reference(d, resolving, m, ref) == Rendered(r.text, m + (r.expansions - n))
    decreases c.limit - n, 0, 0, 0
  {
    var target := Resolve(c.decode, ref, c.root);
    if ref !in resolving && target.Found? {
      ToTypeShift(c, d, resolving + {ref}, n + 1, m + 1, target.schema);
    }
  }

  lemma {:induction false} MapTypesShift(c: Config, d: Config, resolving: set<string>, n: nat, m: nat, items: seq<Json>, bound: nat)
    requires n <= c.limit && forall i :: 0 <= i < |items| ==> Size(items[i]) < bound
    requires Roomy(c, d, n, m, MapTypes(c, resolving, n, items, bound).expansions)
    ensures var r := MapTypes(c, resolving, n, items, bound);
            MapTypes(d, resolving, m, items, bound) == Texts(r.all, m + (r.expansions - n))
    decreases c.limit - n, bound, 0, |items|
  {
    if items != [] {
      var first := ToType(c, resolving, n, items[0]);
      ToTypeShift(c, d, resolving, n, m, items[0]);
      if first.text.Some? {
        MapTypesShift(c, d, resolving, first.expansions, m + (first.expansions - n), items[1..], bound);
      }
    }
  }

  lemma {:induction false} PlainShift(c: Config, d: Config, resolving: set<string>, n: nat, m: nat, schema: Json)
    requires n <= c.limit && schema.Obj? && Roomy(c, d, n, m, Plain(c, resolving, n, schema).expansions)
    ensures var r := Plain(c, resolving, n, schema);
            Plain(d, resolving, m, schema) == Rendered(r.text, m + (r.expansions - n))
    decreases c.limit - n, Size(schema), 2, 0
  {
    SubschemasSmaller(schema);
    if Get(schema, "const").Some? || ItemsOf(Get(schema, "enum")).Some? {
    } else if Variants(schema).Some? {
      MapTypesShift(c, d, resolving, n, m, Variants(schema).value, Size(schema));
    } else if ItemsOf(Get(schema, "allOf")).Some? {
      MapTypesShift(c, d, resolving, n, m, ItemsOf(Get(schema, "allOf")).value, Size(schema));
    } else if TypeEntries(schema).Some? {
      MapTypesShift(c, d, resolving, n, m, PerEntry(schema, TypeEntries(schema).value), Size(schema));
    } else if ShapeOf(schema).List? {
      ArrayShift(c, d, resolving, n, m, schema);
    } else if ShapeOf(schema).Record? {
      ObjectShift(c, d, resolving, n, m, schema);
    }
  }

  lemma {:induction false} ArrayShift(c: Config, d: Config, resolving: set<string>, n: nat, m: nat, schema: Json)
    requires n <= c.limit && schema.Obj? && Roomy(c, d, n, m, ArrayType(c, resolving, n, schema).expansions)
    ensures var r := ArrayType(c, resolving, n, schema);
            ArrayType(d, resolving, m, schema) == Rendered(r.text, m + (r.expansions - n))
    decreases c.limit - n, Size(schema), 1, 0
  {
    var items := Get(schema, "items");
    if items.Some? && !items.value.Arr? {
      GetSmaller(schema, "items");
      ToTypeShift(c, d, resolving, n, m, items.value);
    } else if TupleItems(schema) != [] {
      SubschemasSmaller(schema);
      MapTypesShift(c, d, resolving, n, m, TupleItems(schema), Size(schema));
    }
  }

  lemma {:induction false} ObjectShift(c: Config, d: Config, resolving: set<string>, n: nat, m: nat, schema: Json)
    requires n <= c.limit && schema.Obj? && Roomy(c, d, n, m, ObjectType(c, resolving, n, schema).expansions)
    ensures var r := ObjectType(c, resolving, n, schema);
            ObjectType(d, resolving, m, schema) == Rendered(r.text, m + (r.expansions - n))
    decreases c.limit - n, Size(schema), 1, 0
  {
    PropertiesSmaller(schema);
    var values := Values(Properties(schema), Names(schema));
    var types := MapTypes(c, resolving, n, values, Size(schema));
    MapTypesShift(c, d, resolving, n, m, values, Size(schema));
    if types.all.Some? {
      AdditionalShift(c, d, resolving, types.expansions, m + (types.expansions - n), schema);
      assert MemberTexts(c, schema, Names(schema), types.all.value) == MemberTexts(d, schema, Names(schema), types.all.value);
    }
  }

  lemma {:induction false} AdditionalShift(c: Config, d: Config, resolving: set<string>, n: nat, m: nat, schema: Json)
    requires n <= c.limit && schema.Obj? && Roomy(c, d, n, m, Additional(c, resolving, n, schema).expansions)
    ensures var r := Additional(c, resolving, n, schema);
            Additional(d, resolving, m, schema) == Texts(r.all, m + (r.expansions - n))
    decreases c.limit - n, Size(schema), 0, 0
  {
    var additional := Get(schema, "additionalProperties");
    if additional.Some? && additional.value != Bool(false) {
      GetSmaller(schema, "additionalProperties");
      ToTypeShift(c, d, resolving, n, m, additional.value);
    }
  }

  /** Raising the limit never changes a rendering that did not reach it. */
  lemma LimitIrrelevant(c: Config, higher: nat, schema: Json, maxChars: Option<nat>)
    requires ToType(c, {}, 0, schema).expansions < c.limit <= higher
    ensures SchemaToType(c.(limit := higher), schema, maxChars) == SchemaToType(c, schema, maxChars)
  {
    ToTypeShift(c, c.(limit := higher), {}, 0, 0, schema);
  }
}
