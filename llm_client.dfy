/**
 * The command-line `LLMToolCaller`: one user turn is handed to OpenAI or to
 * Claude, which may ask for the MQ tools once; the tool calls go through
 * the caller's MCP session, and a second model call without tools
 * summarises their results. Only the OpenAI path keeps a conversation
 * history, in the caller's `conversation_history` field.
 */
module LlmClient {
  import opened Wrappers
  import opened Seqs
  import opened McpTypes
  import opened Conversation

  const OpenAiLibraryMissing: string := "❌ OpenAI library not installed. Run: pip install openai"
  const OpenAiKeyNotSet: string := "❌ OPENAI_API_KEY environment variable not set"
  const AnthropicLibraryMissing: string := "❌ Anthropic library not installed. Run: pip install anthropic"
  const AnthropicKeyNotSet: string := "❌ ANTHROPIC_API_KEY environment variable not set"
  const UnknownProvider: string := "❌ Unknown provider: "
  /** The `AttributeError` of reading `.text` from a block that is not a text block (its class name left out). */
  const NoTextAttribute: string := "object has no attribute 'text'"

  /** The MCP server behind the session: its answer to the n-th call of the session. */
  type Server = (nat, string, Args) -> McpReply

  /** The first OpenAI completion of a turn, the tools offered: its message for the history sent. */
  type Ask = seq<Entry> -> OpenAiMessage

  /** The OpenAI summary completion, no tools offered: the content of its message for the history sent. */
  type Summarize = seq<Entry> -> Option<string>

  /** Claude's first reply, to the user input alone. */
  type AskClaude = string -> seq<Block>

  /** Claude's summary reply, to the user input, its own first reply and the tool results. */
  type SummarizeClaude = (string, seq<Block>, seq<ToolResult>) -> seq<Block>

  /** What a handler does with the turn: one of its two setup errors, a value it returns, or an exception it lets out. */
  datatype Outcome =
    | NoLibrary
    | NoKey
    | Returned(text: Option<string>)
    | Raises(error: string)

  /** The texts of the tool calls of one round, up to the first call whose text cannot be read. */
  datatype Answers = Answers(texts: seq<string>, failure: Option<string>)

  /** How many `call_tool`s the round made: one per text, and the one that failed. */
  function Made(a: Answers): nat
  {
    |a.texts| + (if a.failure.Some? then 1 else 0)
  }

  /**
   * The first `n` tool calls of one round, made in request order through a
   * session that had already made `start` calls: `result.content[0].text`
   * of each, until one raises.
   */
  function Answer(calls: seq<ToolCall>, server: Server, start: nat, n: nat): (a: Answers)
    requires n <= |calls|
    ensures Made(a) <= n
    ensures a.failure.None? ==> |a.texts| == n
    decreases n
  {
    if n == 0 then Answers([], None)
    else
      var a := Answer(calls, server, start, n - 1);
      if a.failure.Some? then a
      else
        var r := FirstContentText(server(start + n - 1, calls[n - 1].name, calls[n - 1].args));
        if r.Ok? then Answers(a.texts + [r.value], None) else Answers(a.texts, Some(r.error))
  }

  /** The whole round: every call of the message, up to the first that raises. */
  function Round(calls: seq<ToolCall>, server: Server, start: nat): Answers
  {
    Answer(calls, server, start, |calls|)
  }

  /**
   * The k-th text is what reading the k-th call's reply gives, the session
   * having made `start + k` calls before it; a failure is the exception of
   * the call right after the last text.
   */
  lemma {:induction false} AnswerTexts(calls: seq<ToolCall>, server: Server, start: nat, n: nat)
    requires n <= |calls|
    ensures var a := Answer(calls, server, start, n);
      && (forall k | 0 <= k < |a.texts| ::
            FirstContentText(server(start + k, calls[k].name, calls[k].args)) == Ok(a.texts[k]))
      && (a.failure.Some? ==>
            var k := |a.texts|;
            k < n && FirstContentText(server(start + k, calls[k].name, calls[k].args)) == Err(a.failure.value))
    decreases n
  {
    if n != 0 {
      AnswerTexts(calls, server, start, n - 1);
      var prev := Answer(calls, server, start, n - 1);
      var a := Answer(calls, server, start, n);
      if prev.failure.Some? {
        assert a == prev;
      } else {
        var r := FirstContentText(server(start + n - 1, calls[n - 1].name, calls[n - 1].args));
        if r.Ok? {
          assert a.texts == prev.texts + [r.value];
          forall k | 0 <= k < |a.texts|
            ensures FirstContentText(server(start + k, calls[k].name, calls[k].args)) == Ok(a.texts[k])
          {
            if k < |prev.texts| {
              assert a.texts[k] == prev.texts[k];
            }
          }
        } else {
          assert a == Answers(prev.texts, Some(r.error));
        }
      }
    }
  }

  /** The first failure ends the round: the calls after it are not made. */
  lemma {:induction false} FailureSticks(calls: seq<ToolCall>, server: Server, start: nat, n: nat, m: nat)
    requires n <= m <= |calls|
    requires Answer(calls, server, start, n).failure.Some?
    ensures Answer(calls, server, start, m) == Answer(calls, server, start, n)
    decreases m - n
  {
    if n < m {
      FailureSticks(calls, server, start, n, m - 1);
    }
  }

  /** Two rounds that agree on their first `n` calls agree on their first `n` answers. */
  lemma {:induction false} AnswerPrefix(calls: seq<ToolCall>, other: seq<ToolCall>, server: Server, start: nat, n: nat)
    requires n <= |calls| && n <= |other|
    requires calls[..n] == other[..n]
    ensures Answer(calls, server, start, n) == Answer(other, server, start, n)
    decreases n
  {
    if n != 0 {
      assert calls[n - 1] == calls[..n][n - 1] == other[..n][n - 1] == other[n - 1];
      assert calls[..n - 1] == calls[..n][..n - 1];
      assert other[..n - 1] == other[..n][..n - 1];
      AnswerPrefix(calls, other, server, start, n - 1);
    }
  }

  // ---------------------------------------------------------------------
  // handle_with_openai
  // ---------------------------------------------------------------------

  /** The `tool` entries of a round, `{"role": "tool", "tool_call_id": ..., "content": ...}`, one per text. */
  function ToolEntries(calls: seq<ToolCall>, texts: seq<string>): (es: seq<Entry>)
    requires |texts| <= |calls|
    ensures |es| == |texts|
  {
    seq(|texts|, k requires 0 <= k < |texts| => ToolReply(calls[k].id, None, texts[k]))
  }

  /** One more text appends its call's `tool` entry. */
  lemma ToolEntriesSnoc(calls: seq<ToolCall>, texts: seq<string>, t: string)
    requires |texts| < |calls|
    ensures ToolEntries(calls, texts + [t]) == ToolEntries(calls, texts) + [ToolReply(calls[|texts|].id, None, t)]
  {
  }

  /**
   * The progress of the tool calls of one OpenAI message after the first
   * `j`: none has raised, and the history and the session's log have grown
   * by their entries and their calls.
   */
  predicate ToolProgress(calls: seq<ToolCall>, server: Server, start: nat, j: nat,
                         h0: seq<Entry>, history: seq<Entry>, c0: seq<ToolUse>, log: seq<ToolUse>)
  {
    && j <= |calls|
    && |c0| == start
    && Answer(calls, server, start, j).failure.None?
    && history == h0 + ToolEntries(calls, Answer(calls, server, start, j).texts)
    && log == c0 + UsesOfCalls(calls[..j])
  }

  /**
   * Where the entries of a tool round land: the assistant message right
   * after what was sent, then the k-th call's `tool` entry at offset k.
   */
  lemma RoundLayout(sent: seq<Entry>, m: OpenAiMessage, texts: seq<string>)
    requires |texts| <= |m.toolCalls|
    ensures var r := sent + [AssistantCalls(m)] + ToolEntries(m.toolCalls, texts);
      && |r| == |sent| + 1 + |texts|
      && r[..|sent|] == sent
      && r[|sent|] == AssistantCalls(m)
      && forall k | 0 <= k < |texts| :: r[|sent| + 1 + k] == ToolReply(m.toolCalls[k].id, None, texts[k])
  {
  }

  /** Where the entries of a tool round and the summary after it land. */
  lemma SummaryLayout(sent: seq<Entry>, m: OpenAiMessage, texts: seq<string>, final: Option<string>)
    requires |texts| <= |m.toolCalls|
    ensures var round := sent + [AssistantCalls(m)] + ToolEntries(m.toolCalls, texts);
      var h := round + [Msg("assistant", final)];
      && |h| == |sent| + |texts| + 2
      && h[|sent|] == AssistantCalls(m)
      && (forall k | 0 <= k < |texts| :: h[|sent| + 1 + k] == ToolReply(m.toolCalls[k].id, None, texts[k]))
      && h[..|sent| + 1 + |texts|] == round
      && h[|sent| + 1 + |texts|] == Msg("assistant", final)
  {
    RoundLayout(sent, m, texts);
  }

  /** One turn of a handler: what it does with the turn, the history after it, and the tool calls it made. */
  datatype Exchange = Exchange(outcome: Outcome, history: seq<Entry>, calls: seq<ToolUse>)

  /** `handle_with_openai`, from the setup, the two completions, the session and the history. */
  function OpenAiTurn(setup: Setup, ask: Ask, summarize: Summarize, server: Server, start: nat,
                      history: seq<Entry>, userInput: string): Exchange
  {
    if !setup.hasLibrary then Exchange(NoLibrary, history, [])
    else if KeyMissing(setup.apiKey) then Exchange(NoKey, history, [])
    else
      var sent := history + [UserMsg(userInput)];
      var m := ask(sent);
      if m.toolCalls == [] then Exchange(Returned(m.content), sent + [Msg("assistant", m.content)], [])
      else
        var a := Round(m.toolCalls, server, start);
        var round := sent + [AssistantCalls(m)] + ToolEntries(m.toolCalls, a.texts);
        var made := UsesOfCalls(m.toolCalls[..Made(a)]);
        if a.failure.Some? then Exchange(Raises(a.failure.value), round, made)
        else
          var text := summarize(round);
          Exchange(Returned(text), round + [Msg("assistant", text)], made)
  }

  // ---------------------------------------------------------------------
  // handle_with_anthropic
  // ---------------------------------------------------------------------

  /** The tool calls a Claude reply asks for: its `tool_use` blocks, in order. */
  function Requests(blocks: seq<Block>): (cs: seq<ToolCall>)
    ensures |cs| == |ToolUseBlocks(blocks)|
    ensures forall k | 0 <= k < |cs| ::
      var b := ToolUseBlocks(blocks)[k]; cs[k] == ToolCall(b.id, b.name, b.input)
  {
    var ts := ToolUseBlocks(blocks);
    seq(|ts|, k requires 0 <= k < |ts| => ToolCall(ts[k].id, ts[k].name, ts[k].input))
  }

  /** Looking at one more block adds a request exactly when it is a `tool_use` block. */
  lemma RequestsSnoc(blocks: seq<Block>, j: nat)
    requires j < |blocks|
    ensures Requests(blocks[..j + 1]) == Requests(blocks[..j])
      + (if blocks[j].ToolUseBlock? then [ToolCall(blocks[j].id, blocks[j].name, blocks[j].input)] else [])
  {
    FilterSnoc(blocks, IsToolUse, j);
  }

  /** The requests of a prefix of a reply are a prefix of the reply's requests. */
  lemma RequestsPrefix(blocks: seq<Block>, j: nat)
    requires j <= |blocks|
    ensures var p := Requests(blocks[..j]);
      |p| <= |Requests(blocks)| && Requests(blocks)[..|p|] == p
  {
    assert blocks == blocks[..j] + blocks[j..];
    FilterAppend(blocks[..j], blocks[j..], IsToolUse);
  }

  /**
   * Looking at block j of a reply whose first j blocks held the reply's
   * first n requests: a `tool_use` block is request n, any other block adds
   * none.
   */
  lemma RequestsStep(blocks: seq<Block>, j: nat, n: nat)
    requires j < |blocks|
    requires n == |Requests(blocks[..j])| <= |Requests(blocks)|
    requires Requests(blocks)[..n] == Requests(blocks[..j])
    ensures var cs := Requests(blocks);
      var b := blocks[j];
      && (b.ToolUseBlock? ==>
            && n < |cs| && cs[n] == ToolCall(b.id, b.name, b.input)
            && n + 1 == |Requests(blocks[..j + 1])|
            && cs[..n + 1] == Requests(blocks[..j + 1]))
      && (!b.ToolUseBlock? ==> Requests(blocks[..j + 1]) == Requests(blocks[..j]))
  {
    var cs := Requests(blocks);
    var p := Requests(blocks[..j + 1]);
    RequestsSnoc(blocks, j);
    RequestsPrefix(blocks, j + 1);
    if blocks[j].ToolUseBlock? {
      assert |p| == n + 1;
      assert cs[n] == cs[..n + 1][n] == p[n];
    }
  }

  /** The `tool_result` items of a round, one per text. */
  function Results(calls: seq<ToolCall>, texts: seq<string>): (rs: seq<ToolResult>)
    requires |texts| <= |calls|
    ensures |rs| == |texts|
  {
    seq(|texts|, k requires 0 <= k < |texts| => ToolResult(calls[k].id, texts[k]))
  }

  /** One more text appends its call's `tool_result`. */
  lemma ResultsSnoc(calls: seq<ToolCall>, texts: seq<string>, t: string)
    requires |texts| < |calls|
    ensures Results(calls, texts + [t]) == Results(calls, texts) + [ToolResult(calls[|texts|].id, t)]
  {
  }

  /** The first `j` blocks of a reply hold the first `n` of its requests `cs`. */
  predicate Covered(content: seq<Block>, cs: seq<ToolCall>, j: nat, n: nat)
  {
    && j <= |content|
    && cs == Requests(content)
    && n == |Requests(content[..j])| <= |cs|
    && cs[..n] == Requests(content[..j])
  }

  /** No block looked at yet, no request found yet. */
  lemma CoveredStart(content: seq<Block>)
    ensures Covered(content, Requests(content), 0, 0)
  {
    assert content[..0] == [];
    FilterEmpty(content[..0], IsToolUse);
  }

  /** Once every block is looked at, every request is found. */
  lemma CoveredEnd(content: seq<Block>, cs: seq<ToolCall>, n: nat)
    requires Covered(content, cs, |content|, n)
    ensures n == |cs|
  {
    assert content[..|content|] == content;
  }

  /**
   * The progress of the first `n` requests of a Claude reply: none has
   * raised, and the results and the session's log hold them.
   */
  predicate RequestProgress(cs: seq<ToolCall>, server: Server, start: nat, n: nat,
                            results: seq<ToolResult>, c0: seq<ToolUse>, log: seq<ToolUse>)
  {
    && n <= |cs|
    && |c0| == start
    && Answer(cs, server, start, n).failure.None?
    && results == Results(cs, Answer(cs, server, start, n).texts)
    && log == c0 + UsesOfCalls(cs[..n])
  }

  /**
   * How a Claude round ends: the round's failure (if any), one `tool_result`
   * per text read, and one logged call per call made.
   */
  predicate RoundEnded(cs: seq<ToolCall>, server: Server, start: nat, failure: Option<string>,
                       results: seq<ToolResult>, c0: seq<ToolUse>, log: seq<ToolUse>)
  {
    var a := Round(cs, server, start);
    && failure == a.failure
    && results == Results(cs, a.texts)
    && log == c0 + UsesOfCalls(cs[..Made(a)])
  }

  /** Every request made without a failure ends the round. */
  lemma ProgressEnded(cs: seq<ToolCall>, server: Server, start: nat, results: seq<ToolResult>,
                      c0: seq<ToolUse>, log: seq<ToolUse>)
    requires RequestProgress(cs, server, start, |cs|, results, c0, log)
    ensures RoundEnded(cs, server, start, None, results, c0, log)
  {
  }

  /** `content[0].text`: what reading it gives, or the exception it raises. */
  function FirstBlockText(blocks: seq<Block>): (o: Outcome)
    ensures o.Returned? <==> blocks != [] && blocks[0].TextBlock?
    ensures o.Returned? ==> o.text == Some(blocks[0].text)
    ensures blocks == [] ==> o == Raises(IndexOutOfRange)
    ensures blocks != [] && !blocks[0].TextBlock? ==> o == Raises(NoTextAttribute)
  {
    if blocks == [] then Raises(IndexOutOfRange)
    else if blocks[0].TextBlock? then Returned(Some(blocks[0].text))
    else Raises(NoTextAttribute)
  }

  /** One Claude turn: what it does with the turn and the tool calls it made. */
  datatype Effect = Effect(outcome: Outcome, calls: seq<ToolUse>)

  /** `handle_with_anthropic`, from the setup, the two replies and the session; no history goes in. */
  function ClaudeTurn(setup: Setup, ask: AskClaude, summarize: SummarizeClaude, server: Server, start: nat,
                      userInput: string): Effect
  {
    if !setup.hasLibrary then Effect(NoLibrary, [])
    else if KeyMissing(setup.apiKey) then Effect(NoKey, [])
    else
      var content := ask(userInput);
      var cs := Requests(content);
      var a := Round(cs, server, start);
      var made := UsesOfCalls(cs[..Made(a)]);
      if a.failure.Some? then Effect(Raises(a.failure.value), made)
      else if a.texts != [] then Effect(FirstBlockText(summarize(userInput, content, Results(cs, a.texts))), made)
      else Effect(FirstBlockText(content), made)
  }

  // ---------------------------------------------------------------------
  // The caller
  // ---------------------------------------------------------------------

  /** What `handle_user_input` hands back: a string or `None`, or the exception that escaped. */
  function Value(o: Outcome, libraryMissing: string, keyNotSet: string): Result<Option<string>>
  {
    match o
    case NoLibrary => Ok(Some(libraryMissing))
    case NoKey => Ok(Some(keyNotSet))
    case Returned(text) => Ok(text)
    case Raises(error) => Err(error)
  }

  /** `LLMToolCaller`: its provider name, its MCP session and the OpenAI conversation history. */
  class LlmToolCaller {
    const provider: string
    const session: McpSession
    var conversationHistory: seq<Entry>

    constructor (provider: string, session: McpSession)
      ensures this.provider == provider && this.session == session
      ensures conversationHistory == []
    {
      this.provider := provider;
      this.session := session;
      conversationHistory := [];
    }

    /** The next tool call of an OpenAI message: through the session, then its `tool` entry, unless it raises. */
    method CallNext(calls: seq<ToolCall>, j: nat, ghost start: nat, ghost h0: seq<Entry>, ghost c0: seq<ToolUse>)
      returns (failure: Option<string>)
      requires j < |calls|
      requires ToolProgress(calls, session.server, start, j, h0, conversationHistory, c0, session.calls)
      modifies this, session
      ensures failure.None? ==> ToolProgress(calls, session.server, start, j + 1, h0, conversationHistory, c0, session.calls)
      ensures failure.Some? ==>
        var a := Answer(calls, session.server, start, j + 1);
        && failure == a.failure
        && conversationHistory == h0 + ToolEntries(calls, a.texts)
        && session.calls == c0 + UsesOfCalls(calls[..Made(a)])
    {
      var call := calls[j];
      ghost var texts := Answer(calls, session.server, start, j).texts;
      var result := session.CallTool(call.name, call.args);
      UsesOfCallsSnoc(calls, j);
      var text := FirstContentText(result);
      if text.Err? {
        return Some(text.error);
      }
      conversationHistory := conversationHistory + [ToolReply(call.id, None, text.value)];
      ToolEntriesSnoc(calls, texts, text.value);
      return None;
    }

    /**
     * The tool calls of one OpenAI message, in order: each goes through the
     * session and its text is appended as a `tool` entry, until one raises.
     */
    method CallTools(calls: seq<ToolCall>) returns (failure: Option<string>)
      modifies this, session
      ensures var a := Round(calls, session.server, |old(session.calls)|);
        && failure == a.failure
        && conversationHistory == old(conversationHistory) + ToolEntries(calls, a.texts)
        && session.calls == old(session.calls) + UsesOfCalls(calls[..Made(a)])
    {
      ghost var h0 := conversationHistory;
      ghost var c0 := session.calls;
      ghost var start := |c0|;
      var j := 0;
      while j < |calls|
        invariant ToolProgress(calls, session.server, start, j, h0, conversationHistory, c0, session.calls)
      {
        failure := CallNext(calls, j, start, h0, c0);
        if failure.Some? {
          FailureSticks(calls, session.server, start, j + 1, |calls|);
          return;
        }
        j := j + 1;
      }
      assert calls[..j] == calls;
      return None;
    }

    /** `handle_with_openai(user_input)`. */
    method HandleWithOpenAi(userInput: string, setup: Setup, ask: Ask, summarize: Summarize) returns (out: Outcome)
      modifies this, session
      ensures var e := OpenAiTurn(setup, ask, summarize, session.server, |old(session.calls)|, old(conversationHistory), userInput);
        && out == e.outcome
        && conversationHistory == e.history
        && session.calls == old(session.calls) + e.calls
    {
      if !setup.hasLibrary {
        return NoLibrary;
      }
      if setup.apiKey.None? || setup.apiKey.value == "" {
        return NoKey;
      }
      conversationHistory := conversationHistory + [UserMsg(userInput)];
      var message := ask(conversationHistory);
      if message.toolCalls != [] {
        conversationHistory := conversationHistory + [AssistantCalls(message)];
        var failure := CallTools(message.toolCalls);
        if failure.Some? {
          return Raises(failure.value);
        }
        var finalMessage := summarize(conversationHistory);
        conversationHistory := conversationHistory + [Msg("assistant", finalMessage)];
        return Returned(finalMessage);
      } else {
        conversationHistory := conversationHistory + [Msg("assistant", message.content)];
        return Returned(message.content);
      }
    }

    /** Request n of a Claude reply: through the session, then its `tool_result`, unless it raises. */
    method CallRequest(ghost cs: seq<ToolCall>, n: nat, call: ToolCall, results: seq<ToolResult>,
                       ghost start: nat, ghost c0: seq<ToolUse>)
      returns (results': seq<ToolResult>, failure: Option<string>)
      requires n < |cs| && cs[n] == call
      requires RequestProgress(cs, session.server, start, n, results, c0, session.calls)
      modifies session
      ensures failure.None? ==> RequestProgress(cs, session.server, start, n + 1, results', c0, session.calls)
      ensures failure.Some? ==> RoundEnded(cs, session.server, start, failure, results', c0, session.calls)
    {
      ghost var texts := Answer(cs, session.server, start, n).texts;
      var result := session.CallTool(call.name, call.args);
      UsesOfCallsSnoc(cs, n);
      var text := FirstContentText(result);
      if text.Err? {
        FailureSticks(cs, session.server, start, n + 1, |cs|);
        return results, Some(text.error);
      }
      ResultsSnoc(cs, texts, text.value);
      return results + [ToolResult(call.id, text.value)], None;
    }

    /** Block j of a Claude reply: a `tool_use` block is the next request; any other block is skipped. */
    method CallBlock(content: seq<Block>, ghost cs: seq<ToolCall>, j: nat, n: nat, results: seq<ToolResult>,
                     ghost start: nat, ghost c0: seq<ToolUse>)
      returns (n': nat, results': seq<ToolResult>, failure: Option<string>)
      requires j < |content|
      requires Covered(content, cs, j, n)
      requires RequestProgress(cs, session.server, start, n, results, c0, session.calls)
      modifies session
      ensures failure.None? ==> Covered(content, cs, j + 1, n')
      ensures failure.None? ==> RequestProgress(cs, session.server, start, n', results', c0, session.calls)
      ensures failure.Some? ==> RoundEnded(cs, session.server, start, failure, results', c0, session.calls)
    {
      RequestsStep(content, j, n);
      var block := content[j];
      if !block.ToolUseBlock? {
        return n, results, None;
      }
      results', failure := CallRequest(cs, n, ToolCall(block.id, block.name, block.input), results, start, c0);
      n' := n + 1;
    }

    /**
     * The `tool_use` blocks of a Claude reply, in order (other blocks
     * skipped): each goes through the session and gives one `tool_result`,
     * until one raises.
     */
    method CallToolBlocks(content: seq<Block>) returns (toolResults: seq<ToolResult>, failure: Option<string>)
      modifies session
      ensures RoundEnded(Requests(content), session.server, |old(session.calls)|, failure, toolResults,
                         old(session.calls), session.calls)
    {
      ghost var c0 := session.calls;
      ghost var start := |c0|;
      toolResults := [];
      var n: nat := 0;
      var j := 0;
      ghost var cs := Requests(content);
      CoveredStart(content);
      while j < |content|
        invariant Covered(content, cs, j, n)
        invariant RequestProgress(cs, session.server, start, n, toolResults, c0, session.calls)
      {
        n, toolResults, failure := CallBlock(content, cs, j, n, toolResults, start, c0);
        if failure.Some? {
          return;
        }
        j := j + 1;
      }
      CoveredEnd(content, cs, n);
      ProgressEnded(cs, session.server, start, toolResults, c0, session.calls);
      return toolResults, None;
    }

    /** `handle_with_anthropic(user_input)`: the conversation history is neither read nor changed. */
    method HandleWithAnthropic(userInput: string, setup: Setup, ask: AskClaude, summarize: SummarizeClaude)
      returns (out: Outcome)
      modifies session
      ensures var e := ClaudeTurn(setup, ask, summarize, session.server, |old(session.calls)|, userInput);
        out == e.outcome && session.calls == old(session.calls) + e.calls
      ensures conversationHistory == old(conversationHistory)
    {
      if !setup.hasLibrary {
        return NoLibrary;
      }
      if setup.apiKey.None? || setup.apiKey.value == "" {
        return NoKey;
      }
      var content := ask(userInput);
      var toolResults, failure := CallToolBlocks(content);
      if failure.Some? {
        return Raises(failure.value);
      }
      if toolResults != [] {
        var finalContent := summarize(userInput, content, toolResults);
        return FirstBlockText(finalContent);
      }
      return FirstBlockText(content);
    }

    /** `handle_user_input(user_input)`: the configured provider's handler, or the unknown-provider notice. */
    method HandleUserInput(userInput: string, openAi: Setup, ask: Ask, summarize: Summarize,
                           anthropic: Setup, askClaude: AskClaude, summarizeClaude: SummarizeClaude)
      returns (r: Result<Option<string>>)
      modifies this, session
      ensures provider == "openai" ==>
        var e := OpenAiTurn(openAi, ask, summarize, session.server, |old(session.calls)|, old(conversationHistory), userInput);
        && r == Value(e.outcome, OpenAiLibraryMissing, OpenAiKeyNotSet)
        && conversationHistory == e.history
        && session.calls == old(session.calls) + e.calls
      ensures provider == "anthropic" ==>
        var e := ClaudeTurn(anthropic, askClaude, summarizeClaude, session.server, |old(session.calls)|, userInput);
        && r == Value(e.outcome, AnthropicLibraryMissing, AnthropicKeyNotSet)
        && conversationHistory == old(conversationHistory)
        && session.calls == old(session.calls) + e.calls
      ensures provider != "openai" && provider != "anthropic" ==>
        && r == Ok(Some(UnknownProvider + provider))
        && conversationHistory == old(conversationHistory)
        && session.calls == old(session.calls)
    {
      if provider == "openai" {
        var out := HandleWithOpenAi(userInput, openAi, ask, summarize);
        return Value(out, OpenAiLibraryMissing, OpenAiKeyNotSet);
      } else if provider == "anthropic" {
        var out := HandleWithAnthropic(userInput, anthropic, askClaude, summarizeClaude);
        return Value(out, AnthropicLibraryMissing, AnthropicKeyNotSet);
      }
      return Ok(Some(UnknownProvider + provider));
    }
  }

  // ---------------------------------------------------------------------
  // What the handlers promise
  // ---------------------------------------------------------------------

  /** Without its library or its key, the OpenAI handler changes no history and calls no tool. */
  lemma OpenAiRefusals(setup: Setup, ask: Ask, summarize: Summarize, server: Server, start: nat,
                       history: seq<Entry>, userInput: string)
    requires !setup.hasLibrary || KeyMissing(setup.apiKey)
    ensures var e := OpenAiTurn(setup, ask, summarize, server, start, history, userInput);
      && e.history == history && e.calls == []
      && e.outcome == (if !setup.hasLibrary then NoLibrary else NoKey)
  {
  }

  /**
   * A reply without tool calls: the history gains the user message and the
   * reply's content, which is returned, and no tool is called.
   */
  lemma OpenAiDirectAnswer(setup: Setup, ask: Ask, summarize: Summarize, server: Server, start: nat,
                           history: seq<Entry>, userInput: string)
    requires setup.hasLibrary && !KeyMissing(setup.apiKey)
    requires ask(history + [UserMsg(userInput)]).toolCalls == []
    ensures var m := ask(history + [UserMsg(userInput)]);
      var e := OpenAiTurn(setup, ask, summarize, server, start, history, userInput);
      && e.history == history + [UserMsg(userInput), Msg("assistant", m.content)]
      && e.outcome == Returned(m.content)
      && e.calls == []
  {
  }

  /**
   * The history is only appended to: whatever happens, the old entries stay
   * in front; once the setup succeeds the user message comes right after
   * them, and nothing after it is a plain user message.
   */
  lemma OpenAiHistoryGrows(setup: Setup, ask: Ask, summarize: Summarize, server: Server, start: nat,
                           history: seq<Entry>, userInput: string)
    ensures var e := OpenAiTurn(setup, ask, summarize, server, start, history, userInput);
      && |history| <= |e.history|
      && e.history[..|history|] == history
      && (setup.hasLibrary && !KeyMissing(setup.apiKey) ==>
            && |history| < |e.history|
            && e.history[|history|] == UserMsg(userInput)
            && forall k | |history| < k < |e.history| :: !IsUserMsg(e.history[k]))
  {
    var e := OpenAiTurn(setup, ask, summarize, server, start, history, userInput);
    if setup.hasLibrary && !KeyMissing(setup.apiKey) {
      var sent := history + [UserMsg(userInput)];
      var m := ask(sent);
      if m.toolCalls != [] {
        var a := Round(m.toolCalls, server, start);
        RoundLayout(sent, m, a.texts);
      }
      assert e.history[..|sent|] == sent;
      assert e.history[..|history|] == sent[..|history|];
      assert e.history[|history|] == sent[|history|];
    }
  }

  /**
   * A reply with tool calls gives exactly one tool round: after the user
   * message come the assistant message, the k-th call's `tool` entry with
   * its id and its text at position k, and last the summary, which is
   * returned; each call is made once, in request order.
   */
  lemma OpenAiSingleToolRound(setup: Setup, ask: Ask, summarize: Summarize, server: Server, start: nat,
                              history: seq<Entry>, userInput: string)
    requires setup.hasLibrary && !KeyMissing(setup.apiKey)
    requires ask(history + [UserMsg(userInput)]).toolCalls != []
    requires Round(ask(history + [UserMsg(userInput)]).toolCalls, server, start).failure.None?
    ensures var m := ask(history + [UserMsg(userInput)]);
      var calls := m.toolCalls;
      var e := OpenAiTurn(setup, ask, summarize, server, start, history, userInput);
      var n := |history|;
      && |e.history| == n + |calls| + 3
      && e.history[n + 1] == AssistantCalls(m)
      && (forall k | 0 <= k < |calls| ::
            && e.history[n + 2 + k].ToolReply?
            && e.history[n + 2 + k].toolCallId == calls[k].id
            && FirstContentText(server(start + k, calls[k].name, calls[k].args)) == Ok(e.history[n + 2 + k].output))
      && e.history[n + |calls| + 2] == Msg("assistant", summarize(e.history[..n + |calls| + 2]))
      && e.outcome == Returned(summarize(e.history[..n + |calls| + 2]))
      && e.calls == UsesOfCalls(calls)
  {
    var sent := history + [UserMsg(userInput)];
    var m := ask(sent);
    var a := Round(m.toolCalls, server, start);
    var round := sent + [AssistantCalls(m)] + ToolEntries(m.toolCalls, a.texts);
    OpenAiRoundShape(setup, ask, summarize, server, start, history, userInput);
    AnswerTexts(m.toolCalls, server, start, |m.toolCalls|);
    SummaryCarriesReplies(history, userInput, m, server, start, a.texts, summarize(round));
  }

  /** A completed tool round, as the exchange it produces. */
  lemma OpenAiRoundShape(setup: Setup, ask: Ask, summarize: Summarize, server: Server, start: nat,
                         history: seq<Entry>, userInput: string)
    requires setup.hasLibrary && !KeyMissing(setup.apiKey)
    requires ask(history + [UserMsg(userInput)]).toolCalls != []
    requires Round(ask(history + [UserMsg(userInput)]).toolCalls, server, start).failure.None?
    ensures var sent := history + [UserMsg(userInput)];
      var m := ask(sent);
      var round := sent + [AssistantCalls(m)] + ToolEntries(m.toolCalls, Round(m.toolCalls, server, start).texts);
      OpenAiTurn(setup, ask, summarize, server, start, history, userInput)
        == Exchange(Returned(summarize(round)), round + [Msg("assistant", summarize(round))], UsesOfCalls(m.toolCalls))
  {
    var calls := ask(history + [UserMsg(userInput)]).toolCalls;
    assert calls[..Made(Round(calls, server, start))] == calls;
  }

  /**
   * The history a completed round leaves, laid out: the assistant message,
   * one entry per call carrying its id and the text its reply gave, the summary.
   */
  lemma SummaryCarriesReplies(history: seq<Entry>, userInput: string, m: OpenAiMessage, server: Server, start: nat,
                              texts: seq<string>, final: Option<string>)
    requires |texts| == |m.toolCalls|
    requires forall k | 0 <= k < |texts| ::
      FirstContentText(server(start + k, m.toolCalls[k].name, m.toolCalls[k].args)) == Ok(texts[k])
    ensures var calls := m.toolCalls;
      var sent := history + [UserMsg(userInput)];
      var round := sent + [AssistantCalls(m)] + ToolEntries(calls, texts);
      var h := round + [Msg("assistant", final)];
      var n := |history|;
      && |h| == n + |calls| + 3
      && h[n + 1] == AssistantCalls(m)
      && (forall k | 0 <= k < |calls| ::
            && h[n + 2 + k].ToolReply?
            && h[n + 2 + k].toolCallId == calls[k].id
            && FirstContentText(server(start + k, calls[k].name, calls[k].args)) == Ok(h[n + 2 + k].output))
      && h[..n + |calls| + 2] == round
      && h[n + |calls| + 2] == Msg("assistant", final)
  {
    var sent := history + [UserMsg(userInput)];
    SummaryLayout(sent, m, texts, final);
  }

  /**
   * A tool call that raises ends the turn with its exception: no summary is
   * asked for, the calls made are the calls before it and itself, and the
   * history keeps what was appended up to then.
   */
  lemma OpenAiToolFailure(setup: Setup, ask: Ask, summarize: Summarize, server: Server, start: nat,
                          history: seq<Entry>, userInput: string)
    requires setup.hasLibrary && !KeyMissing(setup.apiKey)
    requires Round(ask(history + [UserMsg(userInput)]).toolCalls, server, start).failure.Some?
    ensures var m := ask(history + [UserMsg(userInput)]);
      var e := OpenAiTurn(setup, ask, summarize, server, start, history, userInput);
      var k := |e.calls| - 1;
      && 1 <= |e.calls| <= |m.toolCalls|
      && e.outcome.Raises?
      && FirstContentText(server(start + k, m.toolCalls[k].name, m.toolCalls[k].args)) == Err(e.outcome.error)
      && e.calls == UsesOfCalls(m.toolCalls[..|e.calls|])
      && |e.history| == |history| + 2 + k
  {
    var m := ask(history + [UserMsg(userInput)]);
    assert m.toolCalls != [];
    AnswerTexts(m.toolCalls, server, start, |m.toolCalls|);
  }

  /**
   * Claude is asked for tools once: whatever happens, the calls made are,
   * in order, a prefix of the `tool_use` blocks of its first reply, and all
   * of them unless one raised.
   */
  lemma ClaudeSingleRound(setup: Setup, ask: AskClaude, summarize: SummarizeClaude, server: Server, start: nat,
                          userInput: string)
    requires setup.hasLibrary && !KeyMissing(setup.apiKey)
    ensures var e := ClaudeTurn(setup, ask, summarize, server, start, userInput);
      var ts := ToolUseBlocks(ask(userInput));
      && |e.calls| <= |ts|
      && (forall k | 0 <= k < |e.calls| :: e.calls[k] == ToolUse(ts[k].name, ts[k].input))
      && (|e.calls| < |ts| ==> e.outcome.Raises?)
  {
  }

  /**
   * With no `tool_use` block in Claude's first reply no tool is called and
   * the reply's first block's text is returned; with some and no failure,
   * the summary reply's first block is, the summary having been asked with
   * one `tool_result` per block, in order, carrying the block's id.
   */
  lemma ClaudeAnswers(setup: Setup, ask: AskClaude, summarize: SummarizeClaude, server: Server, start: nat,
                      userInput: string)
    requires setup.hasLibrary && !KeyMissing(setup.apiKey)
    ensures var content := ask(userInput);
      var e := ClaudeTurn(setup, ask, summarize, server, start, userInput);
      !HasToolUse(content) ==> e == Effect(FirstBlockText(content), [])
    ensures var content := ask(userInput);
      var ts := ToolUseBlocks(content);
      var a := Round(Requests(content), server, start);
      var e := ClaudeTurn(setup, ask, summarize, server, start, userInput);
      HasToolUse(content) && a.failure.None? ==>
        && e.outcome == FirstBlockText(summarize(userInput, content, Results(Requests(content), a.texts)))
        && |a.texts| == |ts|
        && (forall k | 0 <= k < |ts| ::
              Results(Requests(content), a.texts)[k].toolUseId == ts[k].id
              && FirstContentText(server(start + k, ts[k].name, ts[k].input))
                 == Ok(Results(Requests(content), a.texts)[k].content))
  {
    var content := ask(userInput);
    if HasToolUse(content) {
      assert ToolUseBlocks(content) != [];
      AnswerTexts(Requests(content), server, start, |Requests(content)|);
    }
  }

  /** Without its library or its key, the Claude handler calls no tool. */
  lemma ClaudeRefusals(setup: Setup, ask: AskClaude, summarize: SummarizeClaude, server: Server, start: nat,
                       userInput: string)
    requires !setup.hasLibrary || KeyMissing(setup.apiKey)
    ensures ClaudeTurn(setup, ask, summarize, server, start, userInput)
      == Effect(if !setup.hasLibrary then NoLibrary else NoKey, [])
  {
  }
}
