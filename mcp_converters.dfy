/**
 * Conversion of the tools an MCP server lists into the tool formats of the
 * OpenAI and Anthropic APIs. The remote Streamlit client carries its own
 * copies of these two converters; they are the same code.
 */
module McpConverters {
  import opened Wrappers
  import opened JsonValue

  /** An MCP `Tool` as `list_tools` gives it: `description` and `inputSchema` may be absent. */
  datatype McpTool = McpTool(name: string, description: Option<string>, inputSchema: Option<Json>)

  /** `{"type": "object", "properties": {}}`. */
  const EmptyObjectSchema: Json := JObj([("type", JStr("object")), ("properties", JObj([]))])

  /** The tool's schema when it has a non-empty one, otherwise the empty object schema. */
  function SchemaOf(t: McpTool): Json
  {
    if t.inputSchema.Some? && Truthy(t.inputSchema.value) then t.inputSchema.value else EmptyObjectSchema
  }

  /** `tool.description or f"Execute {tool.name}"`. */
  function DescriptionOf(t: McpTool): string
  {
    if t.description.Some? && t.description.value != "" then t.description.value else "Execute " + t.name
  }

  /** One entry of `to_openai_schema`. */
  function OpenAiEntry(t: McpTool): Json
  {
    JObj([("type", JStr("function")),
          ("function", JObj([("name", JStr(t.name)), ("description", JStr(DescriptionOf(t))), ("parameters", SchemaOf(t))]))])
  }

  /** One entry of `to_anthropic_schema`. */
  function AnthropicEntry(t: McpTool): Json
  {
    JObj([("name", JStr(t.name)), ("description", JStr(DescriptionOf(t))), ("input_schema", SchemaOf(t))])
  }

  /** `to_openai_schema(mcp_tools)`: one entry per tool, in order. */
  method ToOpenAiSchema(mcpTools: seq<McpTool>) returns (result: seq<Json>)
    ensures |result| == |mcpTools|
    ensures forall k | 0 <= k < |mcpTools| :: result[k] == OpenAiEntry(mcpTools[k])
  {
    result := [];
    for j := 0 to |mcpTools|
      invariant |result| == j
      invariant forall k | 0 <= k < j :: result[k] == OpenAiEntry(mcpTools[k])
    {
      var tool := mcpTools[j];
      var parameters := if tool.inputSchema.Some? && Truthy(tool.inputSchema.value) then tool.inputSchema.value
                        else EmptyObjectSchema;
      var description := if tool.description.Some? && tool.description.value != "" then tool.description.value
                         else "Execute " + tool.name;
      result := result + [JObj([("type", JStr("function")),
                                ("function", JObj([("name", JStr(tool.name)), ("description", JStr(description)),
                                                   ("parameters", parameters)]))])];
    }
  }

  /** `to_anthropic_schema(mcp_tools)`: one entry per tool, in order. */
  method ToAnthropicSchema(mcpTools: seq<McpTool>) returns (result: seq<Json>)
    ensures |result| == |mcpTools|
    ensures forall k | 0 <= k < |mcpTools| :: result[k] == AnthropicEntry(mcpTools[k])
  {
    result := [];
    for j := 0 to |mcpTools|
      invariant |result| == j
      invariant forall k | 0 <= k < j :: result[k] == AnthropicEntry(mcpTools[k])
    {
      var tool := mcpTools[j];
      var inputSchema := if tool.inputSchema.Some? && Truthy(tool.inputSchema.value) then tool.inputSchema.value
                         else EmptyObjectSchema;
      var description := if tool.description.Some? && tool.description.value != "" then tool.description.value
                         else "Execute " + tool.name;
      result := result + [JObj([("name", JStr(tool.name)), ("description", JStr(description)),
                                ("input_schema", inputSchema)])];
    }
  }

  /** The schema passed on: the tool's own when non-empty, the empty object schema when missing or empty. */
  lemma SchemaRule(t: McpTool)
    ensures t.inputSchema.Some? && Truthy(t.inputSchema.value) ==> SchemaOf(t) == t.inputSchema.value
    ensures t.inputSchema.None? || t.inputSchema == Some(JObj([])) ==> SchemaOf(t) == EmptyObjectSchema
  {
  }

  /** The description passed on: the tool's own when non-empty, `Execute <name>` when missing or empty. */
  lemma DescriptionRule(t: McpTool)
    ensures t.description.Some? && t.description.value != "" ==> DescriptionOf(t) == t.description.value
    ensures t.description.None? || t.description == Some("") ==> DescriptionOf(t) == "Execute " + t.name
  {
  }

  /**
   * The OpenAI form wraps the tool as a `function`: reading it back gives
   * the tool's name, its description and its schema.
   */
  lemma OpenAiEntryReads(t: McpTool)
    ensures var j := OpenAiEntry(t);
      && Get(j, "type") == Some(JStr("function"))
      && Get(j, "function").Some?
      && Get(Get(j, "function").value, "name") == Some(JStr(t.name))
      && Get(Get(j, "function").value, "description") == Some(JStr(DescriptionOf(t)))
      && Get(Get(j, "function").value, "parameters") == Some(SchemaOf(t))
      && Get(j, "name").None?
  {
    var fs := OpenAiEntry(t).fields;
    assert fs[0].0 == "type" && fs[1].0 == "function";
    assert "type" != "name" && "function" != "name";
    assert fs[1..][1..] == [];
    var gs := fs[1].1.fields;
    assert gs[0].0 == "name" && gs[1].0 == "description" && gs[2].0 == "parameters";
    assert "name" != "description" && "name" != "parameters" && "description" != "parameters";
  }

  /** The Anthropic form is flat: name, description and `input_schema`, no `function` wrapper. */
  lemma AnthropicEntryReads(t: McpTool)
    ensures var j := AnthropicEntry(t);
      && Get(j, "name") == Some(JStr(t.name))
      && Get(j, "description") == Some(JStr(DescriptionOf(t)))
      && Get(j, "input_schema") == Some(SchemaOf(t))
      && Get(j, "function").None? && Get(j, "type").None?
  {
    var fs := AnthropicEntry(t).fields;
    assert fs[0].0 == "name" && fs[1].0 == "description" && fs[2].0 == "input_schema";
    assert "name" != "description" && "name" != "input_schema" && "description" != "input_schema";
    assert "function" != "name" && "function" != "description" && "function" != "input_schema";
    assert "type" != "name" && "type" != "description" && "type" != "input_schema";
    assert fs[1..][1..][1..] == [];
  }
}
