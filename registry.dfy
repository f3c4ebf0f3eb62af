/**
 * The server's tool table: three tool descriptors, built once when the
 * server object is created and only read afterwards. The table is a dict
 * keyed by tool name, so its values come out in registration order.
 */
module Registry {
  import opened Wrappers
  import opened JsonValues

  datatype ToolDescriptor = ToolDescriptor(name: string, description: string, inputSchema: Json)

  /** An input schema: an object whose named properties have the given types, all of them required. */
  function Schema(properties: seq<(string, string, string)>): Json {
    JObject([
      ("type", JStr("object")),
      ("properties", JObject(seq(|properties|, k requires 0 <= k < |properties| =>
        (properties[k].0, JObject([("type", JStr(properties[k].1)), ("description", JStr(properties[k].2))]))))),
      ("required", JArray(RequiredNames(properties)))
    ])
  }

  /**
   * A well-formed object schema: of type "object", with a `properties`
   * object and a `required` list naming only declared properties.
   */
  predicate RequiresDeclaredProperties(schema: Json) {
    && schema.JObject?
    && Get(schema.members, "type") == Some(JStr("object"))
    && var properties := Get(schema.members, "properties");
    && var required := Get(schema.members, "required");
    && properties.Some? && properties.value.JObject?
    && required.Some? && required.value.JArray?
    && forall k :: 0 <= k < |required.value.items| ==>
         required.value.items[k].JStr? && HasKey(properties.value.members, required.value.items[k].s)
  }

  lemma SchemaIsWellFormed(properties: seq<(string, string, string)>)
    ensures RequiresDeclaredProperties(Schema(properties))
  {
    var m := Schema(properties).members;
    assert m[0].0 == "type" && m[1].0 == "properties" && m[2].0 == "required";
    var declared := m[1].1.members;
    forall k | 0 <= k < |properties| ensures HasKey(declared, properties[k].0) {
      assert declared[k].0 == properties[k].0;
    }
  }

  /** The tool table, in registration order. */
  function Catalog(): seq<ToolDescriptor> {
    [ ToolDescriptor("add", "将两个数字相加", Schema(NumberProperties)),
      ToolDescriptor("multiply", "将两个数字相乘", Schema(NumberProperties)),
      ToolDescriptor("uppercase", "将文本转换为大写", Schema(TextProperties)) ]
  }

  /** The properties of the add and multiply schemas: name, type, description. */
  const NumberProperties: seq<(string, string, string)> := [("a", "number", "第一个数字"), ("b", "number", "第二个数字")]

  /** The property of the uppercase schema. */
  const TextProperties: seq<(string, string, string)> := [("text", "string", "要转换的文本")]

  /** A descriptor as the JSON object the table stores. */
  function DescriptorJson(t: ToolDescriptor): (j: Json)
    ensures j.JObject? && Get(j.members, "name") == Some(JStr(t.name))
  {
    JObject([("name", JStr(t.name)), ("description", JStr(t.description)), ("inputSchema", t.inputSchema)])
  }

  /** `list(self.tools.values())`: the descriptors, carrying in order the names `list(self.tools.keys())` gives. */
  function ToolsJson(): (tools: seq<Json>)
    ensures |tools| == |ToolNames()|
    ensures forall k :: 0 <= k < |tools| ==>
      tools[k].JObject? && Get(tools[k].members, "name") == Some(JStr(ToolNames()[k]))
  {
    seq(|Catalog()|, k requires 0 <= k < |Catalog()| => DescriptorJson(Catalog()[k]))
  }

  /** `list(self.tools.keys())` */
  function ToolNames(): seq<string> {
    seq(|Catalog()|, k requires 0 <= k < |Catalog()| => Catalog()[k].name)
  }

  /**
   * The table holds add, multiply and uppercase in that order, under distinct
   * names, each descriptor's schema requiring exactly the arguments the tool reads.
   */
  lemma CatalogContents()
    ensures ToolNames() == ["add", "multiply", "uppercase"]
    ensures forall i, j :: 0 <= i < j < |Catalog()| ==> Catalog()[i].name != Catalog()[j].name
    ensures forall k :: 0 <= k < |Catalog()| ==>
      var schema := Catalog()[k].inputSchema;
      schema.JObject? && Get(schema.members, "required") ==
        Some(JArray(if Catalog()[k].name == "uppercase" then [JStr("text")] else [JStr("a"), JStr("b")]))
  {
    CatalogNames();
    CatalogRequiredLists();
  }

  /** Every input schema in the table requires only properties it declares. */
  lemma CatalogSchemasWellFormed()
    ensures forall k :: 0 <= k < |Catalog()| ==> RequiresDeclaredProperties(Catalog()[k].inputSchema)
  {
    SchemaIsWellFormed(NumberProperties);
    SchemaIsWellFormed(TextProperties);
  }

  lemma CatalogNames()
    ensures ToolNames() == ["add", "multiply", "uppercase"]
    ensures forall i, j :: 0 <= i < j < |Catalog()| ==> Catalog()[i].name != Catalog()[j].name
  {
    var names := ToolNames();
    assert names[0] == "add" && names[1] == "multiply" && names[2] == "uppercase";
  }

  lemma CatalogRequiredLists()
    ensures forall k :: 0 <= k < |Catalog()| ==>
      var schema := Catalog()[k].inputSchema;
      schema.JObject? && Get(schema.members, "required") ==
        Some(JArray(if Catalog()[k].name == "uppercase" then [JStr("text")] else [JStr("a"), JStr("b")]))
  {
    SchemaRequires(NumberProperties);
    SchemaRequires(TextProperties);
    assert RequiredNames(NumberProperties) == [JStr("a"), JStr("b")];
    assert RequiredNames(TextProperties) == [JStr("text")];
  }

  function RequiredNames(properties: seq<(string, string, string)>): seq<Json> {
    seq(|properties|, k requires 0 <= k < |properties| => JStr(properties[k].0))
  }

  lemma SchemaRequires(properties: seq<(string, string, string)>)
    ensures Schema(properties).JObject?
    ensures Get(Schema(properties).members, "required") == Some(JArray(RequiredNames(properties)))
  {
    var m := Schema(properties).members;
    assert m[0].0 == "type" && m[1].0 == "properties" && m[2].0 == "required";
    assert m[1..][1..] == [m[2]];
  }
}
