/**
 * The remote Streamlit client's AI handlers: each reaches the MCP server
 * over SSE through `call_mcp_tool`, builds its context from the last ten
 * chat messages of the page, and runs its provider's tool loop on local
 * lists. The OpenAI handler loops for as long as the model asks for tools;
 * the Anthropic and Gemini handlers stop after ten model calls.
 */
module RemoteClient {
  import opened Wrappers
  import opened Seqs
  import opened McpTypes
  import opened Conversation
  import opened ToolLoop
  import McpConverters
  import OpenAiProvider
  import AnthropicProvider
  import GeminiProvider

  const NoOutput: string := "✅ Command executed (No output)"
  const ErrorPrefix: string := "❌ Error: "
  const MaxToolCalls: string := "❌ Max tool calls exceeded."
  const NoTools: string := "No MCP tools available. Check your MCP endpoint."
  const OpenAiKeyMissing: string := "Please provide an OpenAI API key in the sidebar."
  const OpenAiLibraryMissing: string := "❌ openai library not installed."
  const AnthropicKeyMissing: string := "Please provide an Anthropic API key in the sidebar."
  const AnthropicLibraryMissing: string := "❌ anthropic library not installed. Run: pip install anthropic"
  const GeminiKeyMissing: string := "Please provide a Gemini API key in the sidebar."
  const GeminiLibraryMissing: string := "❌ google-generativeai library not installed. Run: pip install google-generativeai"

  /** How many of the page's chat messages a handler passes on as context. */
  const ContextSize: nat := 10

  /** The MCP server behind the endpoint: its answer to a tool call, made in a session of its own. */
  type Server = (string, Args) -> McpReply

  /** One chat message of the page, `{"role": ..., "content": ...}`; an OpenAI answer may have no content. */
  datatype SessionMessage = SessionMessage(role: string, content: Option<string>)

  // ---------------------------------------------------------------------
  // call_mcp_tool
  // ---------------------------------------------------------------------

  /**
   * `call_mcp_tool(endpoint, tool_name, arguments)`, from the server's
   * answer: the first content text when there is one, the no-output notice
   * for an empty content list, and the exception's message behind
   * `❌ Error: ` when the call raised.
   */
  function ResultText(r: McpReply): (text: string)
    ensures FirstContentText(r).Ok? ==> text == FirstContentText(r).value
    ensures r == Content([]) ==> text == NoOutput
    ensures r.Raised? ==> text == ErrorPrefix + FirstContentText(r).error
  {
    match r
    case Content(texts) => if texts != [] then texts[0] else NoOutput
    case Raised(message, _) => ErrorPrefix + message
  }

  /** The callback the handlers run their tool calls through. */
  function ToolCallback(server: Server): ToolFn
  {
    (name: string, args: Args) => ResultText(server(name, args))
  }

  // ---------------------------------------------------------------------
  // The tool list cache and the setup checks
  // ---------------------------------------------------------------------

  /** `st.session_state.mcp_tools`: fetched once, kept while non-empty. */
  class ToolCache {
    var mcpTools: seq<McpConverters.McpTool>

    constructor ()
      ensures mcpTools == []
    {
      mcpTools := [];
    }

    /** `if not mcp_tools: mcp_tools = await get_mcp_tools(endpoint)`; a failed fetch gives the empty list. */
    method Ensure(fetched: seq<McpConverters.McpTool>)
      modifies this
      ensures mcpTools == if old(mcpTools) != [] then old(mcpTools) else fetched
    {
      if mcpTools == [] {
        mcpTools := fetched;
      }
    }
  }

  /** The tools a handler works with once the cache is consulted. */
  function ToolsAfter(cached: seq<McpConverters.McpTool>, fetched: seq<McpConverters.McpTool>): seq<McpConverters.McpTool>
  {
    if cached != [] then cached else fetched
  }

  /**
   * The checks every handler makes before any model call, in order: the
   * key, the library, then (after consulting the cache) the tool list.
   */
  function SetupError(apiKey: string, hasLibrary: bool, tools: seq<McpConverters.McpTool>,
                      keyMissing: string, libraryMissing: string): (e: Option<string>)
    ensures e.None? <==> apiKey != "" && hasLibrary && tools != []
    ensures apiKey == "" ==> e == Some(keyMissing)
    ensures apiKey != "" && !hasLibrary ==> e == Some(libraryMissing)
    ensures apiKey != "" && hasLibrary && tools == [] ==> e == Some(NoTools)
  {
    if apiKey == "" then Some(keyMissing)
    else if !hasLibrary then Some(libraryMissing)
    else if tools == [] then Some(NoTools)
    else None
  }

  // ---------------------------------------------------------------------
  // Context
  // ---------------------------------------------------------------------

  /** The message as a history entry, without its `tools_used` record. */
  function ToEntry(m: SessionMessage): Entry
  {
    Msg(m.role, m.content)
  }

  /** `msg["role"] in ("user", "assistant") and isinstance(msg["content"], str)`. */
  predicate IsTextTurn(m: SessionMessage)
  {
    (m.role == "user" || m.role == "assistant") && m.content.Some?
  }

  /** The Gemini form of a text turn: `assistant` becomes `model`. */
  function ToModelTurn(m: SessionMessage): GeminiProvider.ModelTurn
  {
    GeminiProvider.ModelTurn(if m.role == "user" then "user" else "model", m.content.GetOr(""))
  }

  /** The OpenAI messages: the system prompt, the last ten chat messages as they are, the user message. */
  function OpenAiContext(session: seq<SessionMessage>, systemPrompt: string, userMessage: string): seq<Entry>
  {
    [Msg("system", Some(systemPrompt))] + MapSeq(LastN(session, ContextSize), ToEntry) + [UserMsg(userMessage)]
  }

  /** The Anthropic history: the text turns among the last ten chat messages, then the user message. */
  function AnthropicContext(session: seq<SessionMessage>, userMessage: string): seq<Entry>
  {
    MapSeq(Filter(LastN(session, ContextSize), IsTextTurn), ToEntry) + [UserMsg(userMessage)]
  }

  /** The Gemini chat history: the text turns among the last ten chat messages, in Gemini roles. */
  function GeminiContext(session: seq<SessionMessage>): seq<GeminiProvider.ModelTurn>
  {
    MapSeq(Filter(LastN(session, ContextSize), IsTextTurn), ToModelTurn)
  }

  /** `messages = [system]`, one append per recent chat message, then the user message. */
  method BuildOpenAiMessages(session: seq<SessionMessage>, systemPrompt: string, userMessage: string)
    returns (messages: seq<Entry>)
    ensures messages == OpenAiContext(session, systemPrompt, userMessage)
  {
    messages := [Msg("system", Some(systemPrompt))];
    var recent := LastN(session, ContextSize);
    for j := 0 to |recent|
      invariant messages == [Msg("system", Some(systemPrompt))] + MapSeq(recent[..j], ToEntry)
    {
      var msg := recent[j];
      MapSeqSnoc(recent, ToEntry, j);
      messages := messages + [Msg(msg.role, msg.content)];
    }
    assert recent[..|recent|] == recent;
    messages := messages + [UserMsg(userMessage)];
  }

  /** `history = []`, one append per recent text turn, then the user message. */
  method BuildAnthropicHistory(session: seq<SessionMessage>, userMessage: string) returns (history: seq<Entry>)
    ensures history == AnthropicContext(session, userMessage)
  {
    history := [];
    var recent := LastN(session, ContextSize);
    for j := 0 to |recent|
      invariant history == MapSeq(Filter(recent[..j], IsTextTurn), ToEntry)
    {
      var msg := recent[j];
      TextTurnsSnoc(recent, j, ToEntry);
      if (msg.role == "user" || msg.role == "assistant") && msg.content.Some? {
        history := history + [Msg(msg.role, msg.content)];
      }
    }
    assert recent[..|recent|] == recent;
    history := history + [UserMsg(userMessage)];
  }

  /** One more message of the window adds its image when it is a text turn. */
  lemma TextTurnsSnoc<U>(recent: seq<SessionMessage>, j: nat, f: SessionMessage -> U)
    requires j < |recent|
    ensures MapSeq(Filter(recent[..j + 1], IsTextTurn), f)
      == MapSeq(Filter(recent[..j], IsTextTurn), f) + (if IsTextTurn(recent[j]) then [f(recent[j])] else [])
  {
    FilterSnoc(recent, IsTextTurn, j);
    var a := Filter(recent[..j], IsTextTurn);
    if IsTextTurn(recent[j]) {
      var b := a + [recent[j]];
      assert b[..|a|] == a;
      MapSeqSnoc(b, f, |a|);
    }
  }

  /** `gemini_history = []`, one append per recent text turn. */
  method BuildGeminiHistory(session: seq<SessionMessage>) returns (geminiHistory: seq<GeminiProvider.ModelTurn>)
    ensures geminiHistory == GeminiContext(session)
  {
    geminiHistory := [];
    var recent := LastN(session, ContextSize);
    for j := 0 to |recent|
      invariant geminiHistory == MapSeq(Filter(recent[..j], IsTextTurn), ToModelTurn)
    {
      var msg := recent[j];
      TextTurnsSnoc(recent, j, ToModelTurn);
      if (msg.role == "user" || msg.role == "assistant") && msg.content.Some? {
        var role := if msg.role == "user" then "user" else "model";
        geminiHistory := geminiHistory + [GeminiProvider.ModelTurn(role, msg.content.value)];
      }
    }
    assert recent[..|recent|] == recent;
  }

  /**
   * The OpenAI context: the system prompt first, the user message last, and
   * between them the last ten chat messages unchanged, whatever their role
   * or content.
   */
  lemma OpenAiContextShape(session: seq<SessionMessage>, systemPrompt: string, userMessage: string)
    ensures var c := OpenAiContext(session, systemPrompt, userMessage);
      var recent := LastN(session, ContextSize);
      && |c| == |recent| + 2 <= ContextSize + 2
      && c[0] == Msg("system", Some(systemPrompt))
      && c[|c| - 1] == UserMsg(userMessage)
      && (forall k | 0 <= k < |recent| :: c[k + 1] == Msg(recent[k].role, recent[k].content))
  {
  }

  /**
   * The Anthropic context: at most ten earlier turns, each a user or
   * assistant message with string content taken from the last ten chat
   * messages, and the user message last.
   */
  lemma AnthropicContextShape(session: seq<SessionMessage>, userMessage: string)
    ensures var c := AnthropicContext(session, userMessage);
      && 1 <= |c| <= ContextSize + 1
      && c[|c| - 1] == UserMsg(userMessage)
      && (forall k | 0 <= k < |c| - 1 ::
            && c[k].Msg? && (c[k].role == "user" || c[k].role == "assistant") && c[k].content.Some?
            && SessionMessage(c[k].role, c[k].content) in LastN(session, ContextSize))
  {
    var kept := Filter(LastN(session, ContextSize), IsTextTurn);
    var c := AnthropicContext(session, userMessage);
    forall k | 0 <= k < |c| - 1
      ensures c[k] == ToEntry(kept[k]) && kept[k] in kept
    {
    }
  }

  /**
   * The Gemini context: at most ten turns, each from a user or assistant
   * message with string content among the last ten, an assistant message
   * becoming a `model` turn.
   */
  lemma GeminiContextShape(session: seq<SessionMessage>)
    ensures var c := GeminiContext(session);
      && |c| <= ContextSize
      && (forall k | 0 <= k < |c| ::
            SessionMessage(if c[k].role == "user" then "user" else "assistant", Some(c[k].text)) in LastN(session, ContextSize))
  {
    var kept := Filter(LastN(session, ContextSize), IsTextTurn);
    var c := GeminiContext(session);
    forall k | 0 <= k < |c|
      ensures SessionMessage(if c[k].role == "user" then "user" else "assistant", Some(c[k].text)) == kept[k]
    {
      assert kept[k] in kept;
    }
  }

  /**
   * The page appends the prompt to its chat before calling a handler; the
   * handler appends it once more, so the model sees it twice in a row. The
   * Gemini history ends with it, and `send_message` sends it again.
   */
  lemma PromptSentTwice(session: seq<SessionMessage>, systemPrompt: string, userMessage: string)
    requires session != [] && session[|session| - 1] == SessionMessage("user", Some(userMessage))
    ensures var c := OpenAiContext(session, systemPrompt, userMessage);
      c[|c| - 2] == c[|c| - 1] == UserMsg(userMessage)
    ensures var c := AnthropicContext(session, userMessage);
      |c| >= 2 && c[|c| - 2] == c[|c| - 1] == UserMsg(userMessage)
    ensures var c := GeminiContext(session);
      |c| >= 1 && c[|c| - 1] == GeminiProvider.ModelTurn("user", userMessage)
  {
    var recent := LastN(session, ContextSize);
    assert recent[|recent| - 1] == session[|session| - 1];
    assert recent == recent[..|recent| - 1] + [recent[|recent| - 1]];
    FilterAppend(recent[..|recent| - 1], [recent[|recent| - 1]], IsTextTurn);
  }

  // ---------------------------------------------------------------------
  // The uncapped OpenAI loop
  // ---------------------------------------------------------------------

  /** The model stops asking for tools within `fuel` tool rounds from `messages` on. */
  predicate AnswersWithin(model: OpenAiProvider.Model, callTool: ToolFn, fuel: nat, messages: seq<Entry>)
    decreases fuel
  {
    var m := model(messages);
    m.toolCalls == [] || (fuel > 0 && AnswersWithin(model, callTool, fuel - 1, messages + OpenAiProvider.Round(m, callTool)))
  }

  /** How the OpenAI loop ends: the last reply's content, the tools used, the tool rounds run. */
  datatype OpenAiRun = OpenAiRun(content: Option<string>, used: seq<ToolUse>, rounds: nat)

  /** `while response_message.tool_calls`, from the messages of the pending model call on. */
  function OpenAiRest(model: OpenAiProvider.Model, callTool: ToolFn, fuel: nat, messages: seq<Entry>): OpenAiRun
    requires AnswersWithin(model, callTool, fuel, messages)
    decreases fuel
  {
    var m := model(messages);
    if m.toolCalls == [] then OpenAiRun(m.content, [], 0)
    else
      var next := OpenAiRest(model, callTool, fuel - 1, messages + OpenAiProvider.Round(m, callTool));
      OpenAiRun(next.content, UsesOfCalls(m.toolCalls) + next.used, 1 + next.rounds)
  }

  /**
   * The loop of `handle_ai_conversation` on its local `messages` and
   * `tools_used` lists, for a model that stops asking for tools.
   */
  method OpenAiLoop(model: OpenAiProvider.Model, callTool: ToolFn, context: seq<Entry>, ghost fuel: nat)
    returns (content: Option<string>, used: seq<ToolUse>)
    requires AnswersWithin(model, callTool, fuel, context)
    ensures content == OpenAiRest(model, callTool, fuel, context).content
    ensures used == OpenAiRest(model, callTool, fuel, context).used
  {
    var messages := new History(context);
    var toolsUsed := new ToolLog();
    ghost var whole := OpenAiRest(model, callTool, fuel, context);
    ghost var f := fuel;
    var responseMessage := model(messages.entries);
    while responseMessage.toolCalls != []
      invariant AnswersWithin(model, callTool, f, messages.entries)
      invariant responseMessage == model(messages.entries)
      invariant OpenAiRest(model, callTool, f, messages.entries).content == whole.content
      invariant toolsUsed.uses + OpenAiRest(model, callTool, f, messages.entries).used == whole.used
      decreases f
    {
      ghost var before := messages.entries;
      ghost var uses := toolsUsed.uses;
      OpenAiProvider.ToolRound(responseMessage, callTool, messages, toolsUsed);
      AppendAssoc(uses, UsesOfCalls(responseMessage.toolCalls),
                  OpenAiRest(model, callTool, f - 1, messages.entries).used);
      f := f - 1;
      responseMessage := model(messages.entries);
    }
    AppendNothing(messages.entries, toolsUsed.uses);
    return responseMessage.content, toolsUsed.uses;
  }

  /**
   * `handle_ai_conversation(user_message, endpoint, api_key)`: the setup
   * errors with no tools used, or the tools used and the content of the
   * first reply without tool calls.
   */
  method HandleOpenAi(userMessage: string, apiKey: string, hasLibrary: bool, cache: ToolCache,
                      fetched: seq<McpConverters.McpTool>, session: seq<SessionMessage>, systemPrompt: string,
                      model: OpenAiProvider.Model, server: Server, ghost fuel: nat)
    returns (toolsUsed: Option<seq<ToolUse>>, text: Option<string>)
    requires SetupError(apiKey, hasLibrary, ToolsAfter(cache.mcpTools, fetched), OpenAiKeyMissing, OpenAiLibraryMissing).None?
      ==> AnswersWithin(model, ToolCallback(server), fuel, OpenAiContext(session, systemPrompt, userMessage))
    modifies cache
    ensures apiKey == "" || !hasLibrary ==> cache.mcpTools == old(cache.mcpTools)
    ensures apiKey != "" && hasLibrary ==> cache.mcpTools == ToolsAfter(old(cache.mcpTools), fetched)
    ensures var e := SetupError(apiKey, hasLibrary, ToolsAfter(old(cache.mcpTools), fetched), OpenAiKeyMissing, OpenAiLibraryMissing);
      e.Some? ==> toolsUsed == None && text == e
    ensures var e := SetupError(apiKey, hasLibrary, ToolsAfter(old(cache.mcpTools), fetched), OpenAiKeyMissing, OpenAiLibraryMissing);
      e.None? ==>
        var t := OpenAiRest(model, ToolCallback(server), fuel, OpenAiContext(session, systemPrompt, userMessage));
        toolsUsed == Some(t.used) && text == t.content
  {
    if apiKey == "" {
      return None, Some(OpenAiKeyMissing);
    }
    if !hasLibrary {
      return None, Some(OpenAiLibraryMissing);
    }
    cache.Ensure(fetched);
    if cache.mcpTools == [] {
      return None, Some(NoTools);
    }
    var openAiTools := McpConverters.ToOpenAiSchema(cache.mcpTools);
    var messages := BuildOpenAiMessages(session, systemPrompt, userMessage);
    var content, used := OpenAiLoop(model, ToolCallback(server), messages, fuel);
    return Some(used), content;
  }

  /** A model that always asks for a tool keeps the OpenAI handler looping: no fuel is ever enough. */
  lemma {:induction false} OpenAiLoopHasNoCap(model: OpenAiProvider.Model, callTool: ToolFn, fuel: nat, messages: seq<Entry>)
    requires forall h :: model(h).toolCalls != []
    decreases fuel
    ensures !AnswersWithin(model, callTool, fuel, messages)
  {
    if fuel > 0 {
      OpenAiLoopHasNoCap(model, callTool, fuel - 1, messages + OpenAiProvider.Round(model(messages), callTool));
    }
  }

  /**
   * A model that asks for one tool until the messages reach `limit` entries
   * is followed through every one of its rounds, however many: there is
   * no cap at ten.
   */
  lemma {:induction false} OpenAiLoopFollowsModel(model: OpenAiProvider.Model, callTool: ToolFn, call: ToolCall,
                                                  limit: nat, rounds: nat, messages: seq<Entry>)
    requires forall h :: model(h) == if |h| < limit then OpenAiMessage(None, [call]) else OpenAiMessage(Some(""), [])
    requires |messages| + 2 * rounds == limit
    decreases rounds
    ensures AnswersWithin(model, callTool, rounds, messages)
    ensures OpenAiRest(model, callTool, rounds, messages).rounds == rounds
    ensures |OpenAiRest(model, callTool, rounds, messages).used| == rounds
  {
    if rounds > 0 {
      var round := OpenAiProvider.Round(model(messages), callTool);
      assert |round| == 2;
      OpenAiLoopFollowsModel(model, callTool, call, limit, rounds - 1, messages + round);
    }
  }

  /**
   * The OpenAI loop records every tool call of every round in order: the
   * first round's calls come first, and there is at least one record per
   * round.
   */
  lemma {:induction false} OpenAiUsesInOrder(model: OpenAiProvider.Model, callTool: ToolFn, fuel: nat, messages: seq<Entry>)
    requires AnswersWithin(model, callTool, fuel, messages)
    decreases fuel
    ensures var t := OpenAiRest(model, callTool, fuel, messages);
      && t.rounds <= fuel
      && |t.used| >= t.rounds
      && t.used[..|model(messages).toolCalls|] == UsesOfCalls(model(messages).toolCalls)
  {
    var m := model(messages);
    if m.toolCalls != [] {
      OpenAiUsesInOrder(model, callTool, fuel - 1, messages + OpenAiProvider.Round(m, callTool));
      var next := OpenAiRest(model, callTool, fuel - 1, messages + OpenAiProvider.Round(m, callTool));
      assert (UsesOfCalls(m.toolCalls) + next.used)[..|m.toolCalls|] == UsesOfCalls(m.toolCalls);
    }
  }

  // ---------------------------------------------------------------------
  // The capped Anthropic and Gemini loops
  // ---------------------------------------------------------------------

  /** The handler's text: the model's answer, or the cap message. */
  function CapOr(r: Reply): string
  {
    if r.Answer? then r.text else MaxToolCalls
  }

  /** The Anthropic loop on a local history and `tools_used` list. */
  method RunAnthropic(model: AnthropicProvider.Model, callTool: ToolFn, context: seq<Entry>)
    returns (used: seq<ToolUse>, reply: Reply)
    ensures var t := AnthropicProvider.Rest(model, callTool, 0, context);
      used == t.used && reply == t.reply
  {
    var history := new History(context);
    var log := new ToolLog();
    reply := AnthropicProvider.Loop(model, callTool, history, log);
    used := log.uses;
  }

  /** The Gemini loop on a chat started from `past`, with a local `tools_used` list. */
  method RunGemini(model: GeminiProvider.Model, callTool: ToolFn, past: seq<GeminiProvider.ModelTurn>, userMessage: string)
    returns (used: seq<ToolUse>, reply: Reply)
    ensures var t := GeminiProvider.Rest(model, callTool, past, 0, [GeminiProvider.UserText(userMessage)], GeminiProvider.NoTokens);
      used == t.used && reply == t.reply
  {
    var history := new History([]);
    var log := new ToolLog();
    var usage;
    reply, usage := GeminiProvider.Loop(model, callTool, past, userMessage, history, log);
    used := log.uses;
  }

  /**
   * `handle_ai_conversation_anthropic`: after the setup checks, the same
   * ten-call loop as the Anthropic provider, on a local history.
   */
  method HandleAnthropic(userMessage: string, apiKey: string, hasLibrary: bool, cache: ToolCache,
                         fetched: seq<McpConverters.McpTool>, session: seq<SessionMessage>,
                         model: AnthropicProvider.Model, server: Server)
    returns (toolsUsed: Option<seq<ToolUse>>, text: string)
    modifies cache
    ensures apiKey == "" || !hasLibrary ==> cache.mcpTools == old(cache.mcpTools)
    ensures apiKey != "" && hasLibrary ==> cache.mcpTools == ToolsAfter(old(cache.mcpTools), fetched)
    ensures var e := SetupError(apiKey, hasLibrary, ToolsAfter(old(cache.mcpTools), fetched), AnthropicKeyMissing, AnthropicLibraryMissing);
      e.Some? ==> toolsUsed == None && text == e.value
    ensures var e := SetupError(apiKey, hasLibrary, ToolsAfter(old(cache.mcpTools), fetched), AnthropicKeyMissing, AnthropicLibraryMissing);
      e.None? ==>
        var t := AnthropicProvider.Rest(model, ToolCallback(server), 0, AnthropicContext(session, userMessage));
        toolsUsed == Some(t.used) && text == CapOr(t.reply)
  {
    if apiKey == "" {
      return None, AnthropicKeyMissing;
    }
    if !hasLibrary {
      return None, AnthropicLibraryMissing;
    }
    cache.Ensure(fetched);
    if cache.mcpTools == [] {
      return None, NoTools;
    }
    var anthropicTools := McpConverters.ToAnthropicSchema(cache.mcpTools);
    var context := BuildAnthropicHistory(session, userMessage);
    var used, reply := RunAnthropic(model, ToolCallback(server), context);
    return Some(used), CapOr(reply);
  }

  /**
   * `handle_ai_conversation_gemini`: after the setup checks, the same
   * ten-iteration single-call loop as the Gemini provider (its usage
   * unread), on a chat started from the recent text turns.
   */
  method HandleGemini(userMessage: string, apiKey: string, hasLibrary: bool, cache: ToolCache,
                      fetched: seq<McpConverters.McpTool>, session: seq<SessionMessage>,
                      model: GeminiProvider.Model, server: Server)
    returns (toolsUsed: Option<seq<ToolUse>>, text: string)
    modifies cache
    ensures apiKey == "" || !hasLibrary ==> cache.mcpTools == old(cache.mcpTools)
    ensures apiKey != "" && hasLibrary ==> cache.mcpTools == ToolsAfter(old(cache.mcpTools), fetched)
    ensures var e := SetupError(apiKey, hasLibrary, ToolsAfter(old(cache.mcpTools), fetched), GeminiKeyMissing, GeminiLibraryMissing);
      e.Some? ==> toolsUsed == None && text == e.value
    ensures var e := SetupError(apiKey, hasLibrary, ToolsAfter(old(cache.mcpTools), fetched), GeminiKeyMissing, GeminiLibraryMissing);
      e.None? ==>
        var t := GeminiProvider.Rest(model, ToolCallback(server), GeminiContext(session), 0,
                                     [GeminiProvider.UserText(userMessage)], GeminiProvider.NoTokens);
        toolsUsed == Some(t.used) && text == CapOr(t.reply)
  {
    if apiKey == "" {
      return None, GeminiKeyMissing;
    }
    if !hasLibrary {
      return None, GeminiLibraryMissing;
    }
    cache.Ensure(fetched);
    if cache.mcpTools == [] {
      return None, NoTools;
    }
    var geminiHistory := BuildGeminiHistory(session);
    var used, reply := RunGemini(model, ToolCallback(server), geminiHistory, userMessage);
    return Some(used), CapOr(reply);
  }

  /** An Anthropic model that always asks for tools gets the cap message after ten calls. */
  lemma AnthropicCap(model: AnthropicProvider.Model, server: Server, context: seq<Entry>)
    requires forall h :: HasToolUse(model(h))
    ensures var t := AnthropicProvider.Rest(model, ToolCallback(server), 0, context);
      CapOr(t.reply) == MaxToolCalls && t.modelCalls == MaxIterations
  {
    AnthropicProvider.ToolHungryModelHitsCap(model, ToolCallback(server), 0, context);
  }

  /**
   * A Gemini model that always calls a function gets the cap message after
   * ten calls, with exactly one tool call recorded per call.
   */
  lemma GeminiCap(model: GeminiProvider.Model, server: Server, past: seq<GeminiProvider.ModelTurn>, userMessage: string)
    requires forall p, s :: model(p, s).functionName != ""
    ensures var t := GeminiProvider.Rest(model, ToolCallback(server), past, 0, [GeminiProvider.UserText(userMessage)], GeminiProvider.NoTokens);
      CapOr(t.reply) == MaxToolCalls && |t.used| == MaxIterations
  {
    GeminiProvider.ToolHungryModelHitsCap(model, ToolCallback(server), past, 0, [GeminiProvider.UserText(userMessage)],
                                          GeminiProvider.NoTokens);
  }
}
