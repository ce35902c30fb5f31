/**
 * The client toolkit adapter: translating a tool's JSON-Schema input schema
 * into a validator schema (`jsonSchemaToZod`), and building the toolkit
 * dictionary keyed by tool name (`createMcpToolkit`).
 */
module McpToolkit {
  import opened Json
  import opened Mcp

  /** The validator schemas the translator produces. */
  datatype Zod =
    | ZAny
    | ZString
    | ZNumber
    | ZBoolean
    | ZArray(element: Zod)
    | ZObject(shape: map<string, Zod>, partial: bool)

  // ---------------------------------------------------------------------
  // Array indices as property keys
  // ---------------------------------------------------------------------

  function DigitChar(d: nat): char
    requires d < 10
  {
    (48 + d) as char
  }

  /** The value of one character read as a decimal digit. */
  function DigitValue(c: char): nat {
    if '0' <= c <= '9' then (c as int - 48) as nat else 0
  }

  /** The value of a string read as a decimal numeral, most significant digit first. */
  function DecimalValue(s: string): nat
    decreases |s|
  {
    if s == [] then 0 else 10 * DecimalValue(s[..|s| - 1]) + DigitValue(s[|s| - 1])
  }

  /** The decimal spelling of an array index, as `Object.entries` gives it. */
  function Decimal(n: nat): (s: string)
    ensures |s| >= 1
    ensures s[|s| - 1] == DigitChar(n % 10)
    ensures forall i :: 0 <= i < |s| ==> '0' <= s[i] <= '9'
    ensures s[0] != '0' || n == 0
    ensures DecimalValue(s) == n
    ensures n < 10 <==> |s| == 1
    decreases n
  {
    if n < 10 then [DigitChar(n)]
    else
      var p := Decimal(n / 10);
      assert (p + [DigitChar(n % 10)])[..|p|] == p;
      p + [DigitChar(n % 10)]
  }

  /** Distinct indices have distinct spellings: the spelling reads back as its index. */
  lemma DecimalInjective(a: nat, b: nat)
    requires Decimal(a) == Decimal(b)
    ensures a == b
  {
    assert DecimalValue(Decimal(a)) == a && DecimalValue(Decimal(b)) == b;
  }

  lemma DecimalInjectiveAll()
    ensures forall a: nat, b: nat :: Decimal(a) == Decimal(b) ==> a == b
  {
    forall a: nat, b: nat | Decimal(a) == Decimal(b)
      ensures a == b
    {
      DecimalInjective(a, b);
    }
  }

  // ---------------------------------------------------------------------
  // The translator
  // ---------------------------------------------------------------------

  /** `schema.type` when it is a string, else "" (which no case matches). */
  function TypeName(schema: Json): string {
    if schema.JObj? && "type" in schema.fields && schema.fields["type"].JStr? then schema.fields["type"].s else ""
  }

  /** The branch for `type: "object"` with truthy `properties`. */
  predicate IsObjectSchema(schema: Json) {
    schema.JObj? && TypeName(schema) == "object" && Present(Field(schema, "properties"))
  }

  /** `Array.isArray(schema.required)` */
  predicate RequiredIsArray(schema: Json) {
    schema.JObj? && "required" in schema.fields && schema.fields["required"].JArr?
  }

  /** `Object.entries(properties)` translated value by value. */
  function Shape(props: Json): (shape: map<string, Zod>)
    ensures props.JObj? ==> shape.Keys == props.fields.Keys
    decreases props, 0
  {
    match props
    case JObj(fields) => map k | k in fields :: ToZod(fields[k])
    case JArr(items) =>
      DecimalInjectiveAll();
      map i | 0 <= i < |items| :: Decimal(i) := ToZod(items[i])
    case JStr(s) =>
      DecimalInjectiveAll();
      map i | 0 <= i < |s| :: Decimal(i) := ZAny
    case _ => map[]
  }

  /** jsonSchemaToZod */
  function ToZod(schema: Json): (z: Zod)
    ensures !schema.JObj? ==> z == ZAny
    ensures z.ZObject? <==> IsObjectSchema(schema)
    ensures z.ZObject? ==> z.partial == !RequiredIsArray(schema)
    decreases schema, 1
  {
    if !Truthy(schema) || !(schema.JObj? || schema.JArr?) then ZAny
    else if IsObjectSchema(schema) then
      ZObject(Shape(schema.fields["properties"]), !RequiredIsArray(schema))
    else if TypeName(schema) == "string" then ZString
    else if TypeName(schema) == "number" || TypeName(schema) == "integer" then ZNumber
    else if TypeName(schema) == "boolean" then ZBoolean
    else if TypeName(schema) == "array" then
      ZArray(if schema.JObj? && "items" in schema.fields && Truthy(schema.fields["items"])
             then ToZod(schema.fields["items"]) else ZAny)
    else ZAny
  }

  /** An object schema keeps exactly the property names, each translated on its own. */
  lemma ObjectSchemaShape(schema: Json)
    requires IsObjectSchema(schema) && schema.fields["properties"].JObj?
    ensures var props := schema.fields["properties"].fields;
      ToZod(schema).shape.Keys == props.Keys
      && forall k :: k in props ==> ToZod(schema).shape[k] == ToZod(props[k])
  {
  }

  /** The primitive types and arrays, outside the object branch. */
  lemma PrimitiveSchemas(schema: Json)
    requires schema.JObj? && !IsObjectSchema(schema)
    ensures TypeName(schema) == "string" ==> ToZod(schema) == ZString
    ensures TypeName(schema) in {"number", "integer"} ==> ToZod(schema) == ZNumber
    ensures TypeName(schema) == "boolean" ==> ToZod(schema) == ZBoolean
    ensures TypeName(schema) == "array" ==>
      ToZod(schema) == ZArray(if Present(Field(schema, "items")) then ToZod(schema.fields["items"]) else ZAny)
    ensures TypeName(schema) !in {"string", "number", "integer", "boolean", "array"} ==> ToZod(schema) == ZAny
  {
  }

  /** The names a `required` array lists do not matter, only that it is an array. */
  lemma RequiredNamesIgnored(schema: Json, names: seq<Json>)
    requires RequiredIsArray(schema)
    ensures ToZod(schema.(fields := schema.fields["required" := JArr(names)])) == ToZod(schema)
  {
    var other := schema.(fields := schema.fields["required" := JArr(names)]);
    assert TypeName(other) == TypeName(schema);
    assert Field(other, "properties") == Field(schema, "properties");
    if TypeName(schema) == "array" {
      assert Field(other, "items") == Field(schema, "items");
    }
  }

  // ---------------------------------------------------------------------
  // What the schemas accept
  // ---------------------------------------------------------------------

  /** Validation by a translated schema; a missing key passes when the object is partial or the field accepts anything. */
  predicate Accepts(z: Zod, v: Json)
    decreases z
  {
    match z
    case ZAny => true
    case ZString => v.JStr?
    case ZNumber => v.JNum?
    case ZBoolean => v.JBool?
    case ZArray(e) => v.JArr? && forall i :: 0 <= i < |v.items| ==> Accepts(e, v.items[i])
    case ZObject(shape, partial) =>
      v.JObj? && forall k :: k in shape ==>
        if k in v.fields then Accepts(shape[k], v.fields[k]) else partial || shape[k] == ZAny
  }

  /** The names a `required` array lists. */
  function RequiredNames(schema: Json): set<string>
    requires RequiredIsArray(schema)
  {
    set i | 0 <= i < |schema.fields["required"].items| && schema.fields["required"].items[i].JStr?
      :: schema.fields["required"].items[i].s
  }

  /** Validation by the JSON Schema keywords the translator reads: type, properties, required and items. */
  predicate SchemaAccepts(schema: Json, v: Json)
    decreases schema
  {
    if !schema.JObj? then true
    else
      var f := schema.fields;
      (TypeName(schema) == "string" ==> v.JStr?)
      && (TypeName(schema) == "number" || TypeName(schema) == "integer" ==> v.JNum?)
      && (TypeName(schema) == "boolean" ==> v.JBool?)
      && (TypeName(schema) == "array" ==>
            v.JArr? && ("items" in f ==> forall i :: 0 <= i < |v.items| ==> SchemaAccepts(f["items"], v.items[i])))
      && (TypeName(schema) == "object" ==>
            v.JObj?
            && ("properties" in f && f["properties"].JObj? ==>
                  forall k :: k in f["properties"].fields && k in v.fields ==>
                    SchemaAccepts(f["properties"].fields[k], v.fields[k]))
            && (RequiredIsArray(schema) ==> forall k :: k in RequiredNames(schema) ==> k in v.fields))
  }

  /**
   * Schemas whose truthy `properties` are objects, and whose `required`
   * arrays, where present, list every property name.
   */
  predicate CompleteSchema(schema: Json)
    decreases schema
  {
    schema.JObj? ==>
      var f := schema.fields;
      (IsObjectSchema(schema) ==>
         f["properties"].JObj?
         && (RequiredIsArray(schema) ==> f["properties"].fields.Keys <= RequiredNames(schema))
         && forall k :: k in f["properties"].fields ==> CompleteSchema(f["properties"].fields[k]))
      && ("items" in f ==> CompleteSchema(f["items"]))
  }

  /** For complete schemas the translation rejects nothing the JSON Schema accepts. */
  lemma {:induction false} TranslationAcceptsValidInput(schema: Json, v: Json)
    requires CompleteSchema(schema) && SchemaAccepts(schema, v)
    ensures Accepts(ToZod(schema), v)
    decreases schema
  {
    if IsObjectSchema(schema) {
      var props := schema.fields["properties"].fields;
      var z := ToZod(schema);
      ObjectSchemaShape(schema);
      forall k | k in z.shape
        ensures if k in v.fields then Accepts(z.shape[k], v.fields[k]) else z.partial || z.shape[k] == ZAny
      {
        assert z.shape[k] == ToZod(props[k]);
        if k in v.fields {
          TranslationAcceptsValidInput(props[k], v.fields[k]);
        }
      }
    } else if schema.JObj? && TypeName(schema) == "array" && Present(Field(schema, "items")) {
      var items := schema.fields["items"];
      forall i | 0 <= i < |v.items|
        ensures Accepts(ToZod(items), v.items[i])
      {
        TranslationAcceptsValidInput(items, v.items[i]);
      }
    }
  }

  /**
   * Without completeness this fails: a `required` array listing only "a"
   * still makes "b" required, so `{"a": "x"}` is rejected although the JSON
   * Schema accepts it.
   */
  lemma UnlistedPropertyBecomesRequired()
    ensures var schema := JObj(map[
        "type" := JStr("object"),
        "properties" := JObj(map["a" := JObj(map["type" := JStr("string")]), "b" := JObj(map["type" := JStr("string")])]),
        "required" := JArr([JStr("a")])]);
      var v := JObj(map["a" := JStr("x")]);
      SchemaAccepts(schema, v) && !Accepts(ToZod(schema), v)
  {
    OnlyListedSchemaAccepts();
    OnlyListedTranslationRejects();
  }

  /** The schema of the lemma above: two string properties, only "a" listed as required. */
  function OnlyListedSchema(): Json
  {
    var str := JObj(map["type" := JStr("string")]);
    JObj(map["type" := JStr("object"), "properties" := JObj(map["a" := str, "b" := str]), "required" := JArr([JStr("a")])])
  }

  /** The JSON Schema accepts `{"a": "x"}`: "a" is a string and the only required name. */
  lemma OnlyListedSchemaAccepts()
    ensures SchemaAccepts(OnlyListedSchema(), JObj(map["a" := JStr("x")]))
  {
    var schema := OnlyListedSchema();
    assert TypeName(schema.fields["properties"].fields["a"]) == "string";
    assert RequiredIsArray(schema);
    assert schema.fields["required"].items == [JStr("a")];
    assert RequiredNames(schema) <= {"a"};
  }

  /** The translation rejects `{"a": "x"}`: "b" is in the shape, absent and not optional. */
  lemma OnlyListedTranslationRejects()
    ensures !Accepts(ToZod(OnlyListedSchema()), JObj(map["a" := JStr("x")]))
  {
    var schema := OnlyListedSchema();
    var str := JObj(map["type" := JStr("string")]);
    assert schema.fields["properties"].fields["b"] == str;
    assert RequiredIsArray(schema);
    assert IsObjectSchema(schema);
    ObjectSchemaShape(schema);
    var z := ToZod(schema);
    assert TypeName(str) == "string";
    assert z.shape["b"] == ToZod(str) == ZString;
    assert !z.partial;
  }

  /** Without a `required` array every field is optional: the empty object passes. */
  lemma PartialAcceptsEmptyObject(schema: Json)
    requires IsObjectSchema(schema) && !RequiredIsArray(schema)
    ensures Accepts(ToZod(schema), JObj(map[]))
  {
  }

  // ---------------------------------------------------------------------
  // The toolkit
  // ---------------------------------------------------------------------

  /** A toolkit entry (the execute proxy is not part of this model). */
  datatype ToolkitEntry = ToolkitEntry(description: string, parameters: Zod)

  /** The parameters when a tool has no input schema: `z.object({})`. */
  const EmptyObject: Zod := ZObject(map[], false)

  /** The entry for one tool. */
  function EntryOf(t: McpTool): (e: ToolkitEntry)
    ensures e.description == DescriptionOf(t)
    ensures Present(t.inputSchema) ==> e.parameters == ToZod(t.inputSchema.value)
    ensures !Present(t.inputSchema) ==> Accepts(e.parameters, JObj(map[])) && e.parameters == EmptyObject
  {
    ToolkitEntry(DescriptionOf(t), if Present(t.inputSchema) then ToZod(t.inputSchema.value) else EmptyObject)
  }

  /** The toolkit after adding the tools in order; a later tool with the same name replaces the earlier entry. */
  function Toolkit(tools: seq<McpTool>): map<string, ToolkitEntry>
    decreases |tools|
  {
    if tools == [] then map[]
    else Toolkit(tools[..|tools| - 1])[tools[|tools| - 1].name := EntryOf(tools[|tools| - 1])]
  }

  /** createMcpToolkit's loop over the discovered tools. */
  method BuildToolkit(tools: seq<McpTool>) returns (toolkit: map<string, ToolkitEntry>)
    ensures toolkit == Toolkit(tools)
  {
    toolkit := map[];
    var i := 0;
    while i < |tools|
      invariant 0 <= i <= |tools|
      invariant toolkit == Toolkit(tools[..i])
    {
      assert tools[..i + 1][..i] == tools[..i];
      toolkit := toolkit[tools[i].name := EntryOf(tools[i])];
      i := i + 1;
    }
    assert tools[..i] == tools;
  }

  /** The toolkit has one entry per distinct tool name. */
  lemma {:induction false} ToolkitKeys(tools: seq<McpTool>)
    ensures Toolkit(tools).Keys == set i | 0 <= i < |tools| :: tools[i].name
    decreases |tools|
  {
    if tools != [] {
      var n := |tools| - 1;
      ToolkitKeys(tools[..n]);
      assert forall i :: 0 <= i < n ==> tools[..n][i] == tools[i];
    }
  }

  /** Each name's entry comes from the last tool with that name. */
  lemma {:induction false} LastToolWins(tools: seq<McpTool>, i: nat)
    requires i < |tools|
    requires forall j :: i < j < |tools| ==> tools[j].name != tools[i].name
    ensures tools[i].name in Toolkit(tools)
    ensures Toolkit(tools)[tools[i].name] == EntryOf(tools[i])
    decreases |tools|
  {
    var n := |tools| - 1;
    if i < n {
      assert tools[..n][i] == tools[i];
      LastToolWins(tools[..n], i);
    }
  }
}
