/**
 * The conversation state the tool-calling loops share: history entries in
 * the shapes the providers append them, the replies the language models
 * give, and the two lists every loop mutates in place, the conversation
 * history and `tools_used`.
 */
module Conversation {
  import opened Wrappers
  import opened Seqs
  import opened McpTypes

  /** One requested tool call of an OpenAI reply: its id, the function name and the decoded arguments. */
  datatype ToolCall = ToolCall(id: string, name: string, args: Args)

  /** An OpenAI chat message: its text (JSON `null` when absent) and its tool calls (none when absent). */
  datatype OpenAiMessage = OpenAiMessage(content: Option<string>, toolCalls: seq<ToolCall>)

  /** A content block of an Anthropic reply; only text blocks have a `text` attribute. */
  datatype Block =
    | TextBlock(text: string)
    | ToolUseBlock(id: string, name: string, input: Args)
    | OtherBlock

  /** One `{"type": "tool_result", "tool_use_id": ..., "content": ...}` item. */
  datatype ToolResult = ToolResult(toolUseId: string, content: string)

  /** A Gemini usage record: prompt, candidate and total token counts. */
  datatype Usage = Usage(promptTokens: nat, completionTokens: nat, totalTokens: nat)

  /**
   * The first part of a Gemini reply: a function call when `functionName`
   * is non-empty, otherwise text; with the usage metadata of the reply.
   */
  datatype GeminiReply = GeminiReply(functionName: string, functionArgs: Args, text: string, usage: Option<Usage>)

  /** One entry of a conversation history. */
  datatype Entry =
    /** `{"role": role, "content": content}` with a string content, or JSON `null`. */
    | Msg(role: string, content: Option<string>)
    /** The OpenAI message object itself, appended when it requests tools. */
    | AssistantCalls(message: OpenAiMessage)
    /** `{"role": "tool", "tool_call_id": ..., "name": ..., "content": ...}`; the name is absent in some clients. */
    | ToolReply(toolCallId: string, name: Option<string>, output: string)
    /** `{"role": "assistant", "content": response.content}`: the whole list of blocks. */
    | AssistantBlocks(blocks: seq<Block>)
    /** `{"role": "user", "content": tool_results}`. */
    | UserResults(results: seq<ToolResult>)

  /**
   * What a provider finds when it starts: whether its SDK imported, and the
   * API key from the environment (`None` when the variable is unset).
   */
  datatype Setup = Setup(hasLibrary: bool, apiKey: Option<string>)

  /** `not api_key`: the key is unset or empty. */
  predicate KeyMissing(apiKey: Option<string>)
  {
    apiKey.None? || apiKey.value == ""
  }

  function UserMsg(text: string): Entry { Msg("user", Some(text)) }

  function AssistantMsg(text: string): Entry { Msg("assistant", Some(text)) }

  /** The entry is a plain user message. */
  predicate IsUserMsg(e: Entry) { e.Msg? && e.role == "user" }

  /** The `tools_used` record of each OpenAI tool call, in request order. */
  function UsesOfCalls(calls: seq<ToolCall>): (us: seq<ToolUse>)
    ensures |us| == |calls|
    ensures forall k | 0 <= k < |calls| :: us[k] == ToolUse(calls[k].name, calls[k].args)
  {
    seq(|calls|, k requires 0 <= k < |calls| => ToolUse(calls[k].name, calls[k].args))
  }

  lemma UsesOfCallsSnoc(calls: seq<ToolCall>, j: nat)
    requires j < |calls|
    ensures UsesOfCalls(calls[..j + 1]) == UsesOfCalls(calls[..j]) + [ToolUse(calls[j].name, calls[j].args)]
  {
  }

  /** The request contains a `tool_use` block. */
  predicate HasToolUse(blocks: seq<Block>)
  {
    exists k | 0 <= k < |blocks| :: blocks[k].ToolUseBlock?
  }

  /** `block.type == "tool_use"`. */
  predicate IsToolUse(b: Block) { b.ToolUseBlock? }

  /** The `tool_use` blocks of a reply, in order. */
  function ToolUseBlocks(blocks: seq<Block>): (ts: seq<Block>)
    ensures forall b | b in ts :: b.ToolUseBlock? && b in blocks
    ensures ts == [] <==> !HasToolUse(blocks)
  {
    FilterEmpty(blocks, IsToolUse);
    Filter(blocks, IsToolUse)
  }

  /** `next((b.text for b in content if hasattr(b, "text")), "")`: the text of the first text block. */
  function FirstText(blocks: seq<Block>): (t: string)
    ensures (forall k | 0 <= k < |blocks| :: !blocks[k].TextBlock?) ==> t == ""
    ensures forall k | 0 <= k < |blocks| && blocks[k].TextBlock? ::
      (forall j | 0 <= j < k :: !blocks[j].TextBlock?) ==> t == blocks[k].text
  {
    if blocks == [] then ""
    else if blocks[0].TextBlock? then blocks[0].text
    else
      assert forall k | 1 <= k < |blocks| :: blocks[1..][k - 1] == blocks[k];
      FirstText(blocks[1..])
  }

  /** The `tools_used` records of the `tool_use` blocks, in order. */
  function UsesOfBlocks(blocks: seq<Block>): (us: seq<ToolUse>)
    requires forall b | b in blocks :: b.ToolUseBlock?
    ensures |us| == |blocks|
    ensures forall k | 0 <= k < |blocks| :: us[k] == ToolUse(blocks[k].name, blocks[k].input)
  {
    seq(|blocks|, k requires 0 <= k < |blocks| => ToolUse(blocks[k].name, blocks[k].input))
  }

  /** Taking in one more tool_use block appends its record. */
  lemma UsesOfBlocksSnoc(ts: seq<Block>, b: Block)
    requires forall x | x in ts :: x.ToolUseBlock?
    requires b.ToolUseBlock?
    ensures UsesOfBlocks(ts + [b]) == UsesOfBlocks(ts) + [ToolUse(b.name, b.input)]
  {
  }

  /** The last `n` entries, or all of them when there are fewer: `xs[-n:]`. */
  function LastN<T>(xs: seq<T>, n: nat): (r: seq<T>)
    ensures |r| == if |xs| <= n then |xs| else n
    ensures r == xs[|xs| - |r|..]
  {
    if |xs| <= n then xs else xs[|xs| - n..]
  }

  /**
   * A conversation history, the list the caller owns and the loops append
   * to in place.
   */
  class History {
    var entries: seq<Entry>

    constructor (entries: seq<Entry>)
      ensures this.entries == entries
    {
      this.entries := entries;
    }

    method Append(e: Entry)
      modifies this
      ensures entries == old(entries) + [e]
    {
      entries := entries + [e];
    }

    /** `conversation_history[:] = es`: the same list object, new contents. */
    method SetAll(es: seq<Entry>)
      modifies this
      ensures entries == es
    {
      entries := es;
    }
  }

  /** The `tools_used` list, in invocation order. */
  class ToolLog {
    var uses: seq<ToolUse>

    constructor ()
      ensures uses == []
    {
      uses := [];
    }

    method Append(u: ToolUse)
      modifies this
      ensures uses == old(uses) + [u]
    {
      uses := uses + [u];
    }
  }
}
