/**
 * What a client sees of the MCP server: tool arguments, the reply object a
 * tool call gives back, the `call_tool` callback the providers are handed,
 * and the session the deterministic clients call through.
 */
module McpTypes {
  import opened Wrappers

  /** Tool arguments: a JSON object whose values the MQ tools all take as strings. */
  type Args = map<string, string>

  /** One `{"name": ..., "args": ...}` record of a tool invocation. */
  datatype ToolUse = ToolUse(name: string, args: Args)

  /**
   * What `session.call_tool` produces: the text items of `result.content`,
   * or the exception it raised (with the messages of its sub-exceptions
   * when it is an exception group).
   */
  datatype McpReply =
    | Content(texts: seq<string>)
    | Raised(message: string, subMessages: Option<seq<string>>)

  /** The text of `IndexError` when `result.content[0]` is read from an empty content list. */
  const IndexOutOfRange: string := "list index out of range"

  /** `result.content[0].text`, or the exception reading it raises. */
  function FirstContentText(r: McpReply): (t: Result<string>)
    ensures r.Content? && r.texts != [] <==> t.Ok?
    ensures t.Ok? ==> t.value == r.texts[0]
    ensures r.Raised? ==> t == Err(r.message)
  {
    match r
    case Content(texts) => if texts == [] then Err(IndexOutOfRange) else Ok(texts[0])
    case Raised(message, _) => Err(message)
  }

  /**
   * An MCP server as the clients reach it: every `call_tool` is logged in
   * order, and the reply to the k-th call is whatever the server gives for
   * it (the network and the server's own state are behind `server`).
   */
  class McpSession {
    var calls: seq<ToolUse>
    const server: (nat, string, Args) -> McpReply

    constructor (server: (nat, string, Args) -> McpReply)
      ensures this.server == server && calls == []
    {
      this.server := server;
      calls := [];
    }

    /** `await session.call_tool(name, args)`. */
    method CallTool(name: string, args: Args) returns (r: McpReply)
      modifies this
      ensures calls == old(calls) + [ToolUse(name, args)]
      ensures r == server(|old(calls)|, name, args)
    {
      r := server(|calls|, name, args);
      calls := calls + [ToolUse(name, args)];
    }
  }

  /**
   * The `call_tool(name, args) -> str` callback a provider receives: the
   * text the MCP server's answer is reduced to (the server is behind it).
   */
  type ToolFn = (string, Args) -> string
}
