/**
 * The static MQ tool definitions used in stdio mode: one provider-neutral
 * list of the four tools, and its translation into the OpenAI, Anthropic
 * and Gemini tool formats.
 */
module ToolSchemas {
  import opened Wrappers
  import opened Seqs
  import opened JsonValue

  /** One parameter: its name, its JSON type and its description. */
  datatype Param = Param(name: string, kind: string, description: string)

  /** One entry of `_TOOLS_CORE`. */
  datatype CoreTool = CoreTool(name: string, description: string, parameters: seq<Param>, required: seq<string>)

  const Dspmq: CoreTool := CoreTool("dspmq", "List QMs and status.", [], [])
  const Dspmqver: CoreTool := CoreTool("dspmqver", "Get MQ version details.", [], [])
  const Runmqsc: CoreTool := CoreTool("runmqsc", "Run MQSC command.",
    [Param("qmgr_name", "string", "QM name"),
     Param("mqsc_command", "string", "MQSC cmd"),
     Param("hostname", "string", "Host from search_qmgr_dump")],
    ["qmgr_name", "mqsc_command"])
  const SearchQmgrDump: CoreTool := CoreTool("search_qmgr_dump", "Search QM dump for object host.",
    [Param("search_string", "string", "String to search"),
     Param("object_type", "string",
           "Optional: QMGR, QLOCAL, QREMOTE, QMODEL, QALIAS, CHANNEL, QUEUES (all Q* types), etc.")],
    ["search_string"])

  /** `_TOOLS_CORE`. */
  const ToolsCore: seq<CoreTool> := [Dspmq, Dspmqver, Runmqsc, SearchQmgrDump]

  /** The `properties` object: each parameter's type (or `forcedKind`) and description, in parameter order. */
  function Properties(ps: seq<Param>, forcedKind: Option<string>): (fs: seq<(string, Json)>)
    ensures |fs| == |ps|
  {
    seq(|ps|, k requires 0 <= k < |ps| =>
      (ps[k].name, JObj([("type", JStr(forcedKind.GetOr(ps[k].kind))), ("description", JStr(ps[k].description))])))
  }

  function Strings(ss: seq<string>): seq<Json>
  {
    seq(|ss|, k requires 0 <= k < |ss| => JStr(ss[k]))
  }

  /** `{"type": kind, "properties": ...}`, with `"required"` added only when the list is non-empty. */
  function ParameterSchema(kind: string, properties: seq<(string, Json)>, required: seq<string>): Json
  {
    JObj([("type", JStr(kind)), ("properties", JObj(properties))]
         + (if required != [] then [("required", JArr(Strings(required)))] else []))
  }

  /** `_to_openai(tool)`: a `function` entry wrapping the name, the description and the parameters. */
  function ToOpenAi(t: CoreTool): (j: Json)
    ensures j.JObj? && Keys(j.fields) == ["type", "function"]
    ensures j.fields[1].1.JObj? && Keys(j.fields[1].1.fields) == ["name", "description", "parameters"]
  {
    JObj([("type", JStr("function")),
          ("function", JObj([("name", JStr(t.name)), ("description", JStr(t.description)),
                             ("parameters", ParameterSchema("object", Properties(t.parameters, None), t.required))]))])
  }

  /** `_to_anthropic(tool)`: a flat entry with the schema under `input_schema`. */
  function ToAnthropic(t: CoreTool): (j: Json)
    ensures j.JObj? && Keys(j.fields) == ["name", "description", "input_schema"]
  {
    JObj([("name", JStr(t.name)), ("description", JStr(t.description)),
          ("input_schema", ParameterSchema("object", Properties(t.parameters, None), t.required))])
  }

  /** `_to_gemini(tool)`: every property typed `STRING`, the schema typed `OBJECT`. */
  function ToGemini(t: CoreTool): (j: Json)
    ensures j.JObj? && Keys(j.fields) == ["name", "description", "parameters"]
  {
    JObj([("name", JStr(t.name)), ("description", JStr(t.description)),
          ("parameters", ParameterSchema("OBJECT", Properties(t.parameters, Some("STRING")), t.required))])
  }

  const ToolsOpenAi: seq<Json> := MapSeq(ToolsCore, ToOpenAi)
  const ToolsAnthropic: seq<Json> := MapSeq(ToolsCore, ToAnthropic)
  const ToolsGemini: seq<Json> := MapSeq(ToolsCore, ToGemini)

  // ---------------------------------------------------------------------
  // What the translations keep
  // ---------------------------------------------------------------------

  /** The property keys are the parameter names in order, each with its description. */
  lemma PropertiesKeep(ps: seq<Param>, forcedKind: Option<string>)
    ensures Keys(Properties(ps, forcedKind)) == MapSeq(ps, (p: Param) => p.name)
    ensures forall k | 0 <= k < |ps| ::
      Get(Properties(ps, forcedKind)[k].1, "description") == Some(JStr(ps[k].description))
    ensures forall k | 0 <= k < |ps| ::
      Get(Properties(ps, forcedKind)[k].1, "type") == Some(JStr(forcedKind.GetOr(ps[k].kind)))
  {
    forall k | 0 <= k < |ps|
      ensures Get(Properties(ps, forcedKind)[k].1, "description") == Some(JStr(ps[k].description))
    {
      var fs := Properties(ps, forcedKind)[k].1.fields;
      assert fs[0].0 == "type" && fs[1].0 == "description" && "type" != "description";
    }
  }

  /**
   * A parameter schema reads back its type and properties; it has a
   * `required` key exactly when the list is non-empty, holding that list.
   */
  lemma ParameterSchemaReads(kind: string, properties: seq<(string, Json)>, required: seq<string>)
    ensures var j := ParameterSchema(kind, properties, required);
      && Get(j, "type") == Some(JStr(kind))
      && Get(j, "properties") == Some(JObj(properties))
      && (Get(j, "required").Some? <==> required != [])
      && (required != [] ==> Get(j, "required") == Some(JArr(Strings(required))))
  {
    var fs := ParameterSchema(kind, properties, required).fields;
    assert fs[0].0 == "type" && fs[1].0 == "properties";
    assert "type" != "properties" && "type" != "required" && "properties" != "required";
    if required != [] {
      assert fs[2].0 == "required" && fs[1..][1..][1..] == [];
    } else {
      assert fs[1..][1..] == [];
    }
  }

  /** The OpenAI form: a `function` wrapper around the name, the description and an `object` schema. */
  lemma OpenAiReads(t: CoreTool)
    ensures var j := ToOpenAi(t);
      && Get(j, "type") == Some(JStr("function"))
      && Get(j, "function").Some?
      && Get(Get(j, "function").value, "name") == Some(JStr(t.name))
      && Get(Get(j, "function").value, "description") == Some(JStr(t.description))
      && Get(Get(j, "function").value, "parameters")
           == Some(ParameterSchema("object", Properties(t.parameters, None), t.required))
  {
    var fs := ToOpenAi(t).fields;
    assert fs[0].0 == "type" && fs[1].0 == "function" && "type" != "function";
    var gs := fs[1].1.fields;
    assert gs[0].0 == "name" && gs[1].0 == "description" && gs[2].0 == "parameters";
    assert "name" != "description" && "name" != "parameters" && "description" != "parameters";
  }

  /** The Anthropic form: name, description and an `object` schema under `input_schema`. */
  lemma AnthropicReads(t: CoreTool)
    ensures var j := ToAnthropic(t);
      && Get(j, "name") == Some(JStr(t.name))
      && Get(j, "description") == Some(JStr(t.description))
      && Get(j, "input_schema") == Some(ParameterSchema("object", Properties(t.parameters, None), t.required))
  {
    var fs := ToAnthropic(t).fields;
    assert fs[0].0 == "name" && fs[1].0 == "description" && fs[2].0 == "input_schema";
    assert "name" != "description" && "name" != "input_schema" && "description" != "input_schema";
  }

  /** The Gemini form: name, description and an `OBJECT` schema of `STRING` properties under `parameters`. */
  lemma GeminiReads(t: CoreTool)
    ensures var j := ToGemini(t);
      && Get(j, "name") == Some(JStr(t.name))
      && Get(j, "description") == Some(JStr(t.description))
      && Get(j, "parameters") == Some(ParameterSchema("OBJECT", Properties(t.parameters, Some("STRING")), t.required))
  {
    var fs := ToGemini(t).fields;
    assert fs[0].0 == "name" && fs[1].0 == "description" && fs[2].0 == "parameters";
    assert "name" != "description" && "name" != "parameters" && "description" != "parameters";
  }

  /** The names of a tool list, in order. */
  function Names(ts: seq<CoreTool>): seq<string>
  {
    MapSeq(ts, (t: CoreTool) => t.name)
  }

  /** The four tools, in this order; every provider list has one entry per tool, in the same order. */
  lemma FourTools()
    ensures Names(ToolsCore) == ["dspmq", "dspmqver", "runmqsc", "search_qmgr_dump"]
    ensures |ToolsOpenAi| == |ToolsAnthropic| == |ToolsGemini| == 4
    ensures forall k | 0 <= k < 4 ::
      && ToolsOpenAi[k] == ToOpenAi(ToolsCore[k])
      && ToolsAnthropic[k] == ToAnthropic(ToolsCore[k])
      && ToolsGemini[k] == ToGemini(ToolsCore[k])
  {
  }

  /** Only runmqsc and search_qmgr_dump declare required parameters. */
  lemma RequiredParameters()
    ensures Dspmq.required == [] && Dspmqver.required == []
    ensures Runmqsc.required == ["qmgr_name", "mqsc_command"]
    ensures SearchQmgrDump.required == ["search_string"]
  {
  }
}
