# mqmcp, modelled in Dafny

mqmcp is an MCP (Model Context Protocol) server for IBM MQ, together with several clients. This project models its core and proves properties of that model.

The server has four tools:
- `dspmq`, `dspmqver` and `runmqsc` go to the IBM MQ REST API.
- `search_qmgr_dump` answers from a CSV manifest of queue managers, hosts and objects.

Two guards sit in front of production systems:
- a hostname allow-list, read from `MQ_ALLOWED_HOSTNAME_PREFIXES`;
- the host resolution in `runmqsc`.

The server's formatters turn the REST replies into text. An older SSE variant of the server has its own formatters and request builder.

The clients reach the tools in five ways:
- a pattern-matching client maps a request to an intent with an ordered table of regular expressions;
- a direct Streamlit page builds tool arguments from a fixed operation table and runs a search-then-fan-out workflow;
- a command-line caller gives OpenAI or Claude a single round of tool calls;
- a remote Streamlit page runs the OpenAI, Anthropic or Gemini tool loops over SSE;
- three pluggable providers each run a tool loop capped at ten model calls. The shared tool schemas and converters and the tool-call logger support them.

Each source file has one Dafny module:

| module | models |
|---|---|
| `HostnameGate` | the prefix list and `is_hostname_allowed` |
| `Manifest` | the CSV manifest and its module-level cache |
| `QmgrSearch` | `search_qmgr_dump` |
| `RunmqscRoute`, `ServerTools` | host resolution and the request each server tool sends |
| `ServerPrettify` | the formatters of `server/mqmcpserver.py` |
| `SseServer` | `server/mqmcpserver_sse.py` |
| `DynamicClient` | `clients/dynamic_client.py` |
| `SseClient` | `clients/streamlit_sse_client.py` |
| `LlmClient` | `clients/llm_client.py` |
| `RemoteClient` | `clients/streamlit_remote_client.py` |
| `OpenAiProvider`, `AnthropicProvider`, `GeminiProvider` | the three providers |
| `ProviderRegistry` | the registry |
| `ToolSchemas` | the stdio tool schemas |
| `McpConverters` | the MCP-to-provider converters |
| `ToolLogger` | the REST endpoint each logged tool call stands for |

Shared modules hold the common vocabulary:
- `Wrappers`: `Option` and `Result`;
- `Text`: the Python `str` operations used;
- `Seqs`: filters and de-duplication;
- `JsonValue`: parsed JSON;
- `McpTypes`: tool arguments, MCP replies and the session;
- `Conversation`: history entries, model replies, and the history and `tools_used` lists as classes;
- `ToolLoop`: how a capped loop ends and its bookkeeping.

Code that updates state in place is modelled as classes with `modifies` clauses, and the loops as `while`/`for` loops:
- the CSV cache;
- the conversation history and `tools_used` lists;
- the MCP session's call log;
- the clients' fields.

Each such method is proved against a specification function of its inputs and old state. The properties are then proved about that function.

Language models, the MCP server behind a session, the regular-expression engine (in the pattern-matching client) and the HTTP exchange are all parameters. Each is a function from what the code sends to what it gets back.

The model also shows where files of the repository disagree, as lemmas:
- `SseClient.ServerListingYieldsNoQmgrs`: the page looks for `Queue Manager:`, but the search tool writes `QM:`.
- `SseClient.PrefixRulesDiffer` and `SseClient.DepthCommandsDiffer`: the page and the server read queue-name prefixes differently, and the page and the pattern-matching client send different depth commands.
- `RunmqscRoute.UnlistedQmgrBypassesGate`: a queue manager missing from the manifest skips the hostname gate.
- `HostnameGate.EmptyPrefixAllowsAll`: an empty prefix entry admits every host.

## Model

| member | source | states |
|---|---|---|
| HostnameGate.ParsePrefixes | server/mqmcpserver.py:66-67 | one prefix per comma-separated piece of the configured value (or of `lod,loq,lot` when unset), in order, each piece stripped |
| HostnameGate.BlockedMessage | server/mqmcpserver.py:133-138 | the refusal text quotes the hostname exactly as it was passed in |
| HostnameGate.IsHostnameAllowed | server/mqmcpserver.py:123-138 | allowed exactly when the lower-cased, stripped hostname starts with some lower-cased prefix; the message is empty when allowed and the refusal otherwise |
| HostnameGate.AllowedIgnoresOrder | server/mqmcpserver.py:129-131 | the verdict depends only on which prefixes are configured, not on their order or repetition |
| HostnameGate.AllowedIgnoresCaseAndPadding | server/mqmcpserver.py:128-131 | two hostnames equal after lower-casing and stripping get the same verdict |
| HostnameGate.EmptyPrefixAllowsAll | server/mqmcpserver.py:129-131 | an empty configured prefix (empty value or stray comma) admits every hostname |
| HostnameGate.DefaultConfigSplit | server/mqmcpserver.py:66 | the default configuration splits into `lod`, `loq`, `lot` |
| HostnameGate.ParsePrefixesOfClean | server/mqmcpserver.py:67 | pieces without surrounding whitespace are kept unchanged as the prefixes |
| HostnameGate.DefaultPrefixes | server/mqmcpserver.py:66-67 | with the variable unset the prefixes are exactly `lod`, `loq`, `lot` |
| HostnameGate.AdmitsDevHosts | tests/test_hostname_filtering.py:11-33 | the prefixes `lod`, `loq`, `lot` admit `lodalhost`, `loqalhost` and `lotalhost` |
| HostnameGate.RefusesOtherHosts | tests/test_hostname_filtering.py:35-49 | the same prefixes refuse `lopalhost` and `unknownhost` |
| HostnameGate.DefaultGateAdmits | server/mqmcpserver.py:66-67 | the gate with the default configuration admits the development, QA and test hosts |
| HostnameGate.DefaultGateRefuses | server/mqmcpserver.py:66-67 | the gate with the default configuration refuses the production and an unknown host |
| Manifest.StripRowIsStripped | server/mqmcpserver.py:95 | stripping every cell of a row leaves no cell with surrounding whitespace |
| Manifest.StripRows | server/mqmcpserver.py:93-95 | the stripped table has one row per parsed row, in order, each the stripped file row, and every cell is stripped |
| Manifest.LoadFromDisk | server/mqmcpserver.py:80-109 | a missing or unparseable file gives the empty table, not an exception; otherwise one stripped row per file row |
| Manifest.LoadedRowIsStrippedFileRow | server/mqmcpserver.py:86-106 | row i of the loaded table is file row i with its cells stripped |
| Manifest.CsvCache.constructor | server/mqmcpserver.py:77 | at import nothing is cached and the file has not been read |
| Manifest.CsvCache.LoadCsv | server/mqmcpserver.py:112-117 | the first call reads the disk once and caches what it got, the empty table included; later calls return the cached table without reading |
| Manifest.LoadTwice | server/mqmcpserver.py:112-117 | two calls return the same table and read the disk exactly once, whatever the disk holds in between |
| QmgrSearch.InferredType | server/mqmcpserver.py:178-183 | the filter in force is the caller's non-empty `object_type`, or `QLOCAL`/`QALIAS`/`QREMOTE`, or none |
| QmgrSearch.InferredTypeCases | server/mqmcpserver.py:178-183 | an explicit type wins; otherwise the upper-cased text's `QL.`, `QA.`, `QR.` prefix decides, checked in that order, and any other text gives no filter |
| QmgrSearch.QueuesGroup | server/mqmcpserver.py:187-190 | the pseudo-type `QUEUES`, in any case, passes exactly the rows whose upper-cased type is QLOCAL, QREMOTE, QMODEL or QALIAS |
| QmgrSearch.Triples | server/mqmcpserver.py:207 | the deduplicated (host, queue manager, type) triples: no repeats, and exactly the triples of the given rows, listed in the order of their first occurrence (`Seqs.DistinctFirstOrder`) |
| QmgrSearch.TypesOf | server/mqmcpserver.py:195 | the distinct object types of the rows, each once, in the order of their first occurrence (`Seqs.DistinctFirstOrder`) |
| Seqs.DistinctFirstOrder | server/mqmcpserver.py:195 | `unique()` and `drop_duplicates()` list the distinct elements in the order of their first occurrence: an element listed earlier occurs in the input before every occurrence of an element listed later |
| QmgrSearch.MatchingRows | server/mqmcpserver.py:170-172 | the textual match keeps exactly the rows with some cell containing the text, ignoring case |
| QmgrSearch.TypedRows | server/mqmcpserver.py:185-192 | the type filter keeps exactly the rows that pass it |
| QmgrSearch.HostRows | server/mqmcpserver.py:199-201 | the gate splits the rows into those on allowed hosts and those on the others |
| QmgrSearch.SelectedRows | server/mqmcpserver.py:170-192 | the selected rows are exactly the table rows that match the text and pass the type filter |
| QmgrSearch.Render | server/mqmcpserver.py:165-216 | "not found" and "wrong type" answers open with `❌` and the quoted search text, "restricted only" with `🚫` and the quoted text, a listing with its first reachable line, and an empty table gives the fixed no-records text |
| QmgrSearch.SearchQmgrDump | server/mqmcpserver.py:157-216 | an empty table returns the no-records text; a non-empty table with no row mentioning the text returns `❌ '<text>' not found in the manifest.` |
| QmgrSearch.Search | server/mqmcpserver.py:165-167 | "no records" is the outcome exactly when the table is empty |
| QmgrSearch.SearchNotFound | server/mqmcpserver.py:170-175 | "not found" exactly when the table is non-empty and no row mentions the text |
| QmgrSearch.SearchWrongType | server/mqmcpserver.py:185-196 | a wrong-type answer names the inferred non-empty filter; some row mentions the text, none of them passes the filter, and the listed types are the distinct types of the rows that mention it |
| QmgrSearch.SearchRestrictedOnly | server/mqmcpserver.py:198-204 | a "restricted only" answer means rows were selected and every one of them sits on a refused host |
| QmgrSearch.SearchListing | server/mqmcpserver.py:198-214 | a listing has a non-empty reachable side; each side lists each distinct triple of the selected rows on allowed (resp. refused) hosts once |
| QmgrSearch.MatchIsNeverNotFound | server/mqmcpserver.py:165-175 | a table with a row that mentions the text never answers "no records" or "not found", whatever the filters |
| QmgrSearch.ListingSidesDisjoint | server/mqmcpserver.py:199-201 | no triple is listed both as reachable and as restricted |
| QmgrSearch.ListingLineOrder | server/mqmcpserver.py:207-216 | the reply's lines are the reachable lines in order followed by the restricted lines in order |
| QmgrSearch.LineUnbroken | server/mqmcpserver.py:208-214 | a listing line built from fields without line breaks contains no line break |
| RunmqscRoute.FirstRowFor | server/mqmcpserver.py:303-305 | the result is the earliest row whose queue manager equals the name ignoring case; none when no row matches |
| RunmqscRoute.ResolveRoute | server/mqmcpserver.py:290-317 | blocked exactly when a gated host (explicit or from the manifest) is refused, with the gate's message; otherwise a POST of the `runCommand` body to the base URL with `localhost` replaced by the target, then `action/qmgr/<qmgr>/mqsc` |
| RunmqscRoute.ExplicitHostIsGated | server/mqmcpserver.py:294-300 | a non-empty explicit hostname is stripped and gated, and the request goes to that host |
| RunmqscRoute.ManifestHostIsGated | server/mqmcpserver.py:301-308 | without a hostname, the stripped host of the first manifest row of the queue manager is gated |
| RunmqscRoute.UnlistedQmgrBypassesGate | server/mqmcpserver.py:292-310 | a queue manager missing from the manifest (or an empty manifest) is used as the hostname and the request is sent without consulting the gate |
| ServerTools.Dspmq | server/mqmcpserver.py:219-234 | with `MQ_URL_BASE` set, one GET of `qmgr/` under it and the formatted queue-manager lines or `❌ Connection Error: ` and the error; unset, the TypeError of `None + "qmgr/"` escapes and nothing is sent |
| ServerTools.Dspmqver | server/mqmcpserver.py:245-260 | with the base set, one GET of `installation` and the formatted installations or the connection error; unset, the TypeError escapes and nothing is sent |
| ServerTools.Runmqsc | server/mqmcpserver.py:276-326 | a refused host returns the gate's message and sends nothing, base set or not; past the gate an unset base raises the AttributeError of `None.replace`; otherwise exactly the resolved request is sent and the reply formatted or the connection error returned |
| ServerTools.GateIgnoresBase | server/mqmcpserver.py:296-315 | whether the gate refuses a request does not depend on the base URL, which is first used after the gate |
| ServerPrettify.DspmqLines | server/mqmcpserver.py:239-241 | one `name=N, state=S` line per queue manager, in reply order |
| ServerPrettify.PrettifyDspmq | server/mqmcpserver.py:237-242 | the loop's output is the queue-manager lines joined by newlines |
| ServerPrettify.DspmqOneLinePerQmgr | server/mqmcpserver.py:237-242 | when no name or state holds a line break, splitting the reply on newlines gives back exactly one line per queue manager, in order |
| ServerPrettify.DspmqverLines | server/mqmcpserver.py:265-272 | a leading `\n---` entry followed by one block per installation, in order |
| ServerPrettify.PrettifyDspmqver | server/mqmcpserver.py:263-273 | the loop's output is those entries joined by newlines |
| ServerPrettify.DspmqverShape | server/mqmcpserver.py:263-273 | the reply is `\n---` followed, per installation, by a newline and its block |
| ServerPrettify.JoinBlocks | server/mqmcpserver.py:266-273 | joining the installation blocks and putting a newline in front gives each block preceded by a newline |
| ServerPrettify.MissingFieldsShowNA | server/mqmcpserver.py:268-271 | with values free of line breaks, an installation block reads as five lines, Name, Version, Architecture, Installation Path and `---`; each of the four shows `N/A` when its key is missing and its value otherwise |
| ServerPrettify.ZosBody | server/mqmcpserver.py:346-347 | after popping the first line and then the last if any remain, the body is the text's inner lines |
| ServerPrettify.SplitWide | server/mqmcpserver.py:371 | a wide split always yields at least one piece; what the pieces are is stated by `SplitWideRejoins` and `SplitWideOfJoin` |
| ServerPrettify.SplitWideHead | server/mqmcpserver.py:371 | the first piece of a wide split is a prefix of the text |
| ServerPrettify.SplitWidePiecesNarrow | server/mqmcpserver.py:371 | no piece of a split on runs of two or more whitespace characters holds two adjacent whitespace characters |
| ServerPrettify.WideGaps | server/mqmcpserver.py:371 | one separator fewer than there are pieces |
| ServerPrettify.SplitWideRejoins | server/mqmcpserver.py:371 | the split loses nothing: the pieces with the cut-out separators between them give back the text |
| ServerPrettify.WideGapsAreWide | server/mqmcpserver.py:371 | every cut-out separator is a run of two or more whitespace characters |
| ServerPrettify.NarrowIsWhole | server/mqmcpserver.py:371 | text with no two adjacent whitespace characters is one piece |
| ServerPrettify.CutAtGap | server/mqmcpserver.py:371 | the split cuts at a wide gap: a head without wide gaps or trailing whitespace, a run of two or more whitespace characters and text starting with none give the head, then the split of the rest |
| ServerPrettify.SplitWideOfJoin | server/mqmcpserver.py:371 | fields joined by wide gaps split back into exactly those fields, in order |
| ServerPrettify.StripAll | server/mqmcpserver.py:371 | each piece stripped, one per piece, and stripping is idempotent on the result |
| ServerPrettify.Pieces | server/mqmcpserver.py:371-372 | the emitted pieces are never empty and are already stripped; `PiecesOfJoin` states which they are |
| ServerPrettify.PiecesOfJoin | server/mqmcpserver.py:371-372 | fields joined by wide gaps are emitted as exactly those fields, in order |
| ServerPrettify.FirstHeader | server/mqmcpserver.py:361-364 | the header removed is the first of the three known headers, in list order, that the line starts with; none when no header matches |
| ServerPrettify.CleanLine | server/mqmcpserver.py:351-372 | every piece a distributed line contributes is non-empty and stripped; `CleanLineFields` and `HeaderLineFields` state which they are |
| ServerPrettify.CleanLineFields | server/mqmcpserver.py:351-372 | a line that is not blank, not an echo and not headed by a known header contributes exactly its fields, the text between its wide gaps |
| ServerPrettify.HeaderLineFields | server/mqmcpserver.py:360-372 | after a known header, the line contributes exactly the fields of its stripped remainder |
| ServerPrettify.QueueLineFields | server/mqmcpserver.py:351-372 | `  QUEUE(A)   TYPE(QLOCAL) ` contributes `QUEUE(A)` and `TYPE(QLOCAL)` |
| ServerPrettify.DistributedLines | server/mqmcpserver.py:350-372 | every line of a distributed response's output is non-empty and stripped |
| ServerPrettify.DistributedSnoc | server/mqmcpserver.py:351-372 | one more input line adds exactly what that line contributes, after what the earlier lines gave |
| ServerPrettify.StripKnownHeader | server/mqmcpserver.py:360-364 | the header loop stops at the first matching header and strips what follows it |
| ServerPrettify.ZosResponse | server/mqmcpserver.py:345-349 | the z/OS branch emits `y[15:].strip()` for every line but the first and the last |
| ServerPrettify.DistributedResponse | server/mqmcpserver.py:350-372 | the loop's output is the distributed specification: each line's contribution in order, which is nothing for blank lines and echoes and otherwise the fields between the wide gaps of the line with its header removed |
| ServerPrettify.PrettifyRunmqsc | server/mqmcpserver.py:329-377 | the output is the lines of every response in order, joined by newlines, or the fixed success message when there are none |
| ServerPrettify.ZosKeepsInnerLines | server/mqmcpserver.py:345-349 | a z/OS response of n lines gives n-2 lines (none for one line), line k being line k+1 cut after column 15 and stripped |
| ServerPrettify.BlankAndEchoLinesSkipped | server/mqmcpserver.py:352-358 | blank lines and command echoes (leading digit and ` : `) contribute nothing |
| ServerPrettify.HeaderRemoved | server/mqmcpserver.py:361-372 | a line opening with any of the three known headers contributes the pieces of the stripped remainder, or nothing when the remainder is blank |
| ServerPrettify.EmittedPiecesAreNarrow | server/mqmcpserver.py:369-372 | no emitted piece holds two adjacent whitespace characters |
| ServerPrettify.StripKeepsNarrow | server/mqmcpserver.py:371 | stripping a piece without wide gaps leaves none |
| ServerPrettify.RunmqscEmptyReply | server/mqmcpserver.py:342-375 | responses without text lines leave no lines, so the reply is the fixed success message |
| SseServer.LinesNlSnoc | server/mqmcpserver_sse.py:83 | appending a line and a newline to the accumulated text is the text of the longer line list |
| SseServer.LinesNlAppend | server/mqmcpserver_sse.py:82-83 | the text of two line lists one after the other is the concatenation of their texts |
| SseServer.LinesNlPair | server/mqmcpserver_sse.py:83 | two lines give each line followed by a newline |
| SseServer.JoinNl | server/mqmcpserver_sse.py:81-85 | newline-terminated lines are the lines joined by newlines plus a final newline |
| SseServer.FramedLines | server/mqmcpserver_sse.py:81-85 | when no line holds a line break, the reply splits on newlines into the empty line, the opening rule, the lines and a final empty piece |
| SseServer.DspmqReplyLines | server/mqmcpserver_sse.py:82-83 | two reply lines per queue manager |
| SseServer.DspmqLineAt | server/mqmcpserver_sse.py:82-83 | line 2k is `name = N, running = S` of the k-th queue manager and line 2k+1 the rule |
| SseServer.PrettifyDspmq | server/mqmcpserver_sse.py:79-85 | the reply is the opening rule followed by one entry line and one rule per queue manager, in order |
| SseServer.DspmqStep | server/mqmcpserver_sse.py:83 | one loop pass appends the entry line and a rule |
| SseServer.DspmqverReplyLines | server/mqmcpserver_sse.py:110-115 | five reply lines per installation |
| SseServer.DspmqverReplyLinesAt | server/mqmcpserver_sse.py:110-115 | lines 5k to 5k+4 are the k-th installation's four labelled lines and rule |
| SseServer.PrettifyDspmqver | server/mqmcpserver_sse.py:107-117 | the reply is the opening rule and, per installation, its four labelled lines (missing keys as `N/A`) and a rule |
| SseServer.AppendInstallation | server/mqmcpserver_sse.py:111-115 | one pass appends the installation's block |
| SseServer.InstallationText | server/mqmcpserver_sse.py:111-115 | the block one pass appends is the installation's five lines, each newline-terminated |
| SseServer.LinesNlFive | server/mqmcpserver_sse.py:111-115 | five lines give each line followed by a newline |
| SseServer.ZosSseLines | server/mqmcpserver_sse.py:156-157 | two output lines per remaining z/OS line |
| SseServer.NonBlank | server/mqmcpserver_sse.py:160-162 | every kept line is from the response and has visible content |
| SseServer.ResponseFailsIff | server/mqmcpserver_sse.py:152-155 | one response raises exactly when its text is empty (index `[0]`) or is a single z/OS line (second `pop`) |
| SseServer.NonBlankKeepsContent | server/mqmcpserver_sse.py:160-162 | every line with visible content is kept |
| SseServer.RunmqscSseFailsIff | server/mqmcpserver_sse.py:150-157 | the whole reply raises exactly when some response raises |
| SseServer.SomeResponseFailsSnoc | server/mqmcpserver_sse.py:150 | some response of a longer list raises exactly when one of the shorter list or the new last one does |
| SseServer.ZosSse | server/mqmcpserver_sse.py:156-157 | the z/OS loop appends each remaining line from column 15 on, each followed by a rule |
| SseServer.DistributedSse | server/mqmcpserver_sse.py:159-163 | the distributed loop appends the lines with visible content verbatim, each with a newline, then one rule |
| SseServer.AppendResponse | server/mqmcpserver_sse.py:151-163 | one response is appended, or it raises the index or pop error |
| SseServer.PrettifyRunmqsc | server/mqmcpserver_sse.py:147-165 | the reply is the opening rule followed by every response's lines in order, or the exception of the first response that raises |
| SseServer.FramedEmpty | server/mqmcpserver_sse.py:81 | the reply with no entries is `\n---\n` |
| SseServer.PrefixErrorPersists | server/mqmcpserver_sse.py:150-155 | once a response raises, the rest of the responses change nothing |
| SseServer.RequestBody | server/mqmcpserver_sse.py:132 | the body is the fixed head, the command and the fixed tail |
| SseServer.ExtractRequestBody | server/mqmcpserver_sse.py:132 | the command can be read back out of the body verbatim: it is not escaped |
| SseServer.RequestBodyOfExtract | server/mqmcpserver_sse.py:132 | every body of this shape is the body of the command it carries |
| SseServer.SseCommandUrl | server/mqmcpserver_sse.py:134 | the URL keeps the base unchanged, and the queue manager's name reads back from between `action/qmgr/` and `/mqsc` |
| SseServer.SseUrlKeepsBase | server/mqmcpserver_sse.py:134 | the URL is the newer server's URL with `localhost` left as the host: no host substitution and no gate |
| SseServer.Dspmq | server/mqmcpserver_sse.py:58-76 | with the base set, the framed queue-manager lines or the connection error; unset, the TypeError of the URL concatenation escapes and nothing is sent |
| SseServer.Dspmqver | server/mqmcpserver_sse.py:87-105 | with the base set, the framed installation lines or the connection error; unset, the TypeError escapes and nothing is sent |
| SseServer.Runmqsc | server/mqmcpserver_sse.py:119-143 | with the base set, the request is always sent to the unsubstituted URL with the concatenated body, and a failed request or a formatter exception is returned as a connection error; unset, the TypeError escapes and nothing is sent |
| McpTypes.FirstContentText | clients/streamlit_remote_client.py:88-90 | `content[0].text` exists exactly when the reply has content items, and is the first; a raised exception passes its message through |
| McpTypes.McpSession.constructor | clients/dynamic_client.py:123-126 | a new session has logged no call |
| McpTypes.McpSession.CallTool | clients/dynamic_client.py:266 | each `call_tool` is logged in order and answered by the server for that call |
| Conversation.UsesOfCalls | clients/providers/openai_provider.py:77-80 | one `tools_used` record per requested call, in request order, with its name and arguments |
| Conversation.UsesOfCallsSnoc | clients/providers/openai_provider.py:80 | handling one more call appends its record |
| Conversation.ToolUseBlocks | clients/providers/anthropic_provider.py:64-81 | the `tool_use` blocks of a reply in order; empty exactly when the reply has no `tool_use` block |
| Conversation.FirstText | clients/providers/anthropic_provider.py:67-69 | the text of the first text block, or empty when the reply has none |
| Conversation.UsesOfBlocks | clients/providers/anthropic_provider.py:79-85 | one `tools_used` record per `tool_use` block, in order |
| Conversation.UsesOfBlocksSnoc | clients/providers/anthropic_provider.py:85 | taking in one more block appends its record |
| Conversation.LastN | clients/providers/gemini_provider.py:105-106 | `xs[-n:]`: the last n entries, or all when there are fewer |
| Conversation.History.constructor | clients/providers/openai_provider.py:31 | the history the caller owns, with its entries |
| Conversation.History.Append | clients/providers/openai_provider.py:49 | an append adds exactly one entry at the end |
| Conversation.History.SetAll | clients/providers/gemini_provider.py:105-106 | an in-place reassignment replaces the contents of the same list |
| Conversation.ToolLog.constructor | clients/streamlit_remote_client.py:173 | a fresh `tools_used` list is empty |
| Conversation.ToolLog.Append | clients/providers/openai_provider.py:80 | an append adds exactly one record at the end |
| ToolLoop.Then | clients/providers/openai_provider.py:54-92 | a tool round costs one model call and adds its entries and records in front of the rest of the loop's |
| ToolLoop.AfterToolRound | clients/providers/openai_provider.py:74-92 | a tool round, which appends no plain message, keeps the way the rest of the loop ends |
| ToolLoop.AnswerIsAnswered | clients/providers/openai_provider.py:68-72 | a text answer is the last entry and the only plain message the loop appends |
| ToolLoop.AccountsStep | clients/providers/openai_provider.py:75-92 | what a tool round appended moves from the rest of the loop onto the lists |
| ToolLoop.AccountsDone | clients/providers/openai_provider.py:94 | at the cap nothing is left to append |
| ToolLoop.AfterUserShape | clients/providers/openai_provider.py:49 | the user message comes first and every later entry is shifted by one |
| OpenAiProvider.ToolEntries | clients/providers/openai_provider.py:77-92 | one `tool` entry per requested call |
| OpenAiProvider.ToolEntriesAt | clients/providers/openai_provider.py:85-92 | the j-th `tool` entry carries the j-th call's id and name and the callback's answer to it |
| OpenAiProvider.ToolEntriesSnoc | clients/providers/openai_provider.py:77-92 | handling one more call appends its `tool` entry |
| OpenAiProvider.RestStep | clients/providers/openai_provider.py:54-92 | a tool round is followed by the rest of the loop on the history after the round |
| OpenAiProvider.ToolRound | clients/providers/openai_provider.py:75-92 | the assistant message is appended, then per call in request order its `tools_used` record and its `tool` entry |
| OpenAiProvider.Chat | clients/providers/openai_provider.py:28-94 | the returned string, the history and `tools_used` are exactly what the loop specification gives for the setup, the history and the model |
| OpenAiProvider.Iterate | clients/providers/openai_provider.py:57-92 | one iteration: a text answer (`content or ""`) is appended and returned; otherwise the tool round is appended and the loop goes on |
| OpenAiProvider.Advance | clients/providers/openai_provider.py:54-92 | one iteration keeps the loop's accounting against the whole turn |
| OpenAiProvider.Loop | clients/providers/openai_provider.py:52-94 | the loop returns, and appends to both lists, what the specification of the turn says |
| OpenAiProvider.RestBounded | clients/providers/openai_provider.py:52-54 | the model is asked at most once per remaining iteration, so at most ten times |
| OpenAiProvider.RestGrowth | clients/providers/openai_provider.py:68-92 | the history grows by one entry per model call and one per tool call, and nothing is removed |
| OpenAiProvider.RestAddsNoUserMsg | clients/providers/openai_provider.py:54-92 | the loop never appends a user message |
| OpenAiProvider.RestOutcome | clients/providers/openai_provider.py:54-94 | the loop ends with a text answer appended last and as its only plain message, or at the cap after every remaining iteration asked for tools |
| OpenAiProvider.ToolHungryModelHitsCap | clients/providers/openai_provider.py:52-94 | a model that always asks for tools is asked ten times and the loop gives up with the cap message |
| OpenAiProvider.ChatShape | clients/providers/openai_provider.py:36-94 | a missing library or key returns an error and changes nothing; otherwise the user message is appended first and once, there are one to ten model calls, and the history grows by one entry per model call and per tool call |
| OpenAiProvider.RoundAtFront | clients/providers/openai_provider.py:75-92 | a first tool round puts the assistant message right after the user message and then the tool entries in request order |
| OpenAiProvider.FirstRoundInOrder | clients/providers/openai_provider.py:75-92 | in the first tool round the results appear in request order, each with its call's id, and `tools_used` starts with the calls' records in the same order |
| AnthropicProvider.ResultsOf | clients/providers/anthropic_provider.py:78-96 | one `tool_result` item per `tool_use` block |
| AnthropicProvider.ResultsOfAt | clients/providers/anthropic_provider.py:90-96 | the k-th result carries the k-th block's id and the callback's answer to its name and input |
| AnthropicProvider.ResultsOfSnoc | clients/providers/anthropic_provider.py:90-96 | answering one more block appends its result |
| AnthropicProvider.RestStep | clients/providers/anthropic_provider.py:53-98 | a tool round is followed by the rest of the loop on the history after the round |
| AnthropicProvider.ToolRound | clients/providers/anthropic_provider.py:75-98 | the whole reply is appended as an assistant entry, each `tool_use` block in order is recorded and called, then one user entry holds all results in the same order |
| AnthropicProvider.Chat | clients/providers/anthropic_provider.py:27-100 | the returned string, the history and `tools_used` are exactly what the loop specification gives |
| AnthropicProvider.Iterate | clients/providers/anthropic_provider.py:56-98 | one iteration: without a `tool_use` block the first text (or empty) is appended and returned; otherwise the tool round is appended and the loop goes on |
| AnthropicProvider.Advance | clients/providers/anthropic_provider.py:53-98 | one iteration keeps the loop's accounting against the whole turn |
| AnthropicProvider.Loop | clients/providers/anthropic_provider.py:51-100 | the loop returns, and appends to both lists, what the specification of the turn says |
| AnthropicProvider.RestBounded | clients/providers/anthropic_provider.py:51-53 | at most ten model calls |
| AnthropicProvider.RestGrowth | clients/providers/anthropic_provider.py:70-98 | each tool round appends exactly two entries and the final answer one |
| AnthropicProvider.RestAddsNoUserMsg | clients/providers/anthropic_provider.py:53-98 | the loop appends no plain user message; tool results are a different kind of entry |
| AnthropicProvider.RestOutcome | clients/providers/anthropic_provider.py:53-100 | the loop ends with the text answer appended last, or at the cap after every remaining iteration asked for tools |
| AnthropicProvider.ToolHungryModelHitsCap | clients/providers/anthropic_provider.py:51-100 | a model that always asks for a tool is asked ten times and the loop gives up with the cap message |
| AnthropicProvider.ChatShape | clients/providers/anthropic_provider.py:35-100 | a setup error changes nothing; otherwise the user message comes first and once, there are one to ten model calls, k tool rounds and an answer add 2k+2 entries, and the cap adds 21 |
| AnthropicProvider.FirstRoundInOrder | clients/providers/anthropic_provider.py:75-98 | the first tool round appends the whole reply, then one user entry whose results answer the `tool_use` blocks in order, and `tools_used` starts with their records |
| GeminiProvider.ModelHistory | clients/providers/gemini_provider.py:93-97 | the model-side history has no more entries than the shared one, and every turn is `user` or `model` |
| GeminiProvider.ModelHistoryAppend | clients/providers/gemini_provider.py:94-97 | rebuilding is entry by entry: two parts give their two histories in order |
| GeminiProvider.UserTurnsAreUserMessages | clients/providers/gemini_provider.py:95-97 | the model sees a `user` turn with text c exactly when the shared history holds a user message with string content c |
| GeminiProvider.BuildModelHistory | clients/providers/gemini_provider.py:93-97 | the loop builds exactly the model-side history |
| GeminiProvider.Chat | clients/providers/gemini_provider.py:60-152 | the returned text and usage (none for the `{}` of a setup error), the pruned shared history and `tools_used` are exactly what the specification gives |
| GeminiProvider.Step | clients/providers/gemini_provider.py:116-150 | one iteration: a reply without a function call appends its text to the history and ends the loop with the specified outcome; otherwise the call is recorded and made, the history is untouched, and the loop goes on with the function response as the next message |
| GeminiProvider.Loop | clients/providers/gemini_provider.py:109-152 | the loop returns the specified reply and usage, appends one `tools_used` record per function call, and touches the shared history only to append the final answer |
| GeminiProvider.RestBounded | clients/providers/gemini_provider.py:109-116 | between one and ten model calls |
| GeminiProvider.RestUsage | clients/providers/gemini_provider.py:111-122 | the returned usage is the starting usage plus the counts of every reply, so no counter decreases |
| GeminiProvider.RestCalls | clients/providers/gemini_provider.py:124-138 | one function call per iteration: the k-th record is the k-th reply's call; the loop ends with the text of the first reply without a call, or at the cap after a call in every remaining iteration |
| GeminiProvider.ToolHungryModelHitsCap | clients/providers/gemini_provider.py:113-152 | a model that always calls a function is asked ten times, ten tools are used, and the cap message is returned |
| GeminiProvider.ChatShape | clients/providers/gemini_provider.py:68-152 | a setup error returns `{}` and changes nothing; otherwise the history is the last ten entries up to the user message plus the answer when there is one (eleven after a long history), and tool rounds never reach it |
| ProviderRegistry.Get | clients/providers/__init__.py:43 | a provider is found exactly when some registry entry has the key, and it is that entry's provider |
| ProviderRegistry.AvailableProviders | clients/providers/__init__.py:50-52 | the registry's names, in registration order |
| ProviderRegistry.Resolve | clients/providers/__init__.py:37-47 | resolution succeeds exactly when the lower-cased name is registered; otherwise the error names the input and the supported names |
| ProviderRegistry.Provider.constructor | clients/providers/__init__.py:47 | an instance of the resolved provider class |
| ProviderRegistry.GetProvider | clients/providers/__init__.py:37-47 | every successful call returns a fresh instance of the resolved provider; an unknown name gives the `ValueError` text |
| ProviderRegistry.AvailableAreTheThree | clients/providers/__init__.py:30-34 | the names are exactly `openai`, `anthropic`, `gemini`, in that order |
| ProviderRegistry.UnknownProviderText | clients/providers/__init__.py:45-46 | the error lists `openai, anthropic, gemini` in registry order |
| ProviderRegistry.ResolveIgnoresCase | clients/providers/__init__.py:43 | a name and its lower-case form resolve alike |
| ProviderRegistry.ResolveKnown | clients/providers/__init__.py:30-43 | each registered name, in any letter case, resolves to its provider |
| ToolSchemas.Properties | clients/mq_tools/schemas.py:71-74 | one property per parameter |
| ToolSchemas.PropertiesKeep | clients/mq_tools/schemas.py:71-74 | the property keys are the parameter names in order, each with its description and its type (or the forced one) |
| ToolSchemas.ParameterSchemaReads | clients/mq_tools/schemas.py:75-77 | the schema reads back its type and properties, and has a `required` key exactly when the core list is non-empty, holding that list |
| ToolSchemas.ToOpenAi | clients/mq_tools/schemas.py:70-85 | an OpenAI entry has exactly the keys `type` and `function`, and the function object exactly `name`, `description` and `parameters`, in that order |
| ToolSchemas.ToAnthropic | clients/mq_tools/schemas.py:94-106 | an Anthropic entry has exactly the keys `name`, `description` and `input_schema`, in that order |
| ToolSchemas.ToGemini | clients/mq_tools/schemas.py:115-127 | a Gemini entry has exactly the keys `name`, `description` and `parameters`, in that order |
| ToolSchemas.OpenAiReads | clients/mq_tools/schemas.py:70-85 | the OpenAI form is a `function` wrapper around the name, the description and an `object` schema |
| ToolSchemas.AnthropicReads | clients/mq_tools/schemas.py:94-106 | the Anthropic form holds the name, the description and an `object` schema under `input_schema` |
| ToolSchemas.GeminiReads | clients/mq_tools/schemas.py:115-127 | the Gemini form holds the name, the description and an `OBJECT` schema whose properties are all `STRING` |
| ToolSchemas.FourTools | clients/mq_tools/schemas.py:17-130 | the core list is dspmq, dspmqver, runmqsc, search_qmgr_dump, and each provider list translates it entry by entry in the same order |
| ToolSchemas.RequiredParameters | clients/mq_tools/schemas.py:17-63 | only runmqsc (`qmgr_name`, `mqsc_command`) and search_qmgr_dump (`search_string`) declare required parameters |
| McpConverters.ToOpenAiSchema | clients/mq_tools/converters.py:16-35 | one OpenAI entry per MCP tool, in input order |
| McpConverters.ToAnthropicSchema | clients/mq_tools/converters.py:38-54 | one Anthropic entry per MCP tool, in input order |
| McpConverters.SchemaRule | clients/mq_tools/converters.py:20-24 | a non-empty input schema is passed through unchanged; a missing or empty one becomes the empty object schema |
| McpConverters.DescriptionRule | clients/mq_tools/converters.py:30 | a non-empty description is kept; a missing or empty one becomes `Execute <name>` |
| McpConverters.OpenAiEntryReads | clients/mq_tools/converters.py:25-34 | the OpenAI entry is a `function` wrapper holding the name, the description and the schema, and has no top-level name |
| McpConverters.AnthropicEntryReads | clients/mq_tools/converters.py:47-53 | the Anthropic entry is flat: name, description and `input_schema`, with no `function` wrapper and no type |
| ToolLogger.ShouldShowLogging | clients/tool_logger.py:17-19 | logging is shown when the variable is unset; a set value must be four letters starting with `t` or `T` to show it |
| ToolLogger.RestApiUrl | clients/tool_logger.py:22-48 | dspmq and dspmqver endpoints lie under the base; a runmqsc endpoint ends with `action/qmgr/<qmgr>/mqsc` for the named queue manager or `UNKNOWN`; the search maps to the CSV file and any other tool to `Unknown endpoint` |
| ToolLogger.ShowLoggingCases | clients/tool_logger.py:17-19 | logging is shown when the variable is unset or is `true` in any letter case, and only then |
| ToolLogger.ReplaceHost | clients/tool_logger.py:43 | a base whose only `localhost` sits between two parts without an `l` gets the host in its place |
| ToolLogger.DefaultBaseParts | clients/tool_logger.py:35 | the default base has no `l` around its `localhost` |
| ToolLogger.DefaultRunmqscUrl | clients/tool_logger.py:35-44 | with the default base the runmqsc endpoint is `https://<qmgr>:9443/ibmmq/rest/v3/admin/action/qmgr/<qmgr>/mqsc` |
| ToolLogger.LoggedUrlMatchesServer | clients/tool_logger.py:41-44 | the logged runmqsc endpoint is the server's URL for a queue manager used as its own host |
| RemoteClient.ResultText | clients/streamlit_remote_client.py:84-95 | a tool call's text is the first content item's text, the fixed "Command executed (No output)" message when the reply has no content, and the exception text behind "❌ Error: " when the call raised |
| RemoteClient.SetupError | clients/streamlit_remote_client.py:150-161 | a handler goes on exactly when the key is set, the library is present and the tool list is non-empty; otherwise the key is checked first, then the library, then the tools, each with its own message |
| RemoteClient.ToolCache.constructor | clients/streamlit_remote_client.py:59-60 | the page's tool cache starts empty |
| RemoteClient.ToolCache.Ensure | clients/streamlit_remote_client.py:158-159 | a non-empty cache is kept as it is; an empty one is replaced by the freshly fetched list (empty when the fetch failed) |
| RemoteClient.BuildOpenAiMessages | clients/streamlit_remote_client.py:165-169 | the loop builds exactly the OpenAI context: system prompt, the last ten chat messages, the user message |
| RemoteClient.BuildAnthropicHistory | clients/streamlit_remote_client.py:226-230 | the loop builds exactly the Anthropic context: the user/assistant text turns among the last ten messages, then the user message |
| RemoteClient.BuildGeminiHistory | clients/streamlit_remote_client.py:296-300 | the loop builds exactly the Gemini history: the user/assistant text turns among the last ten messages, an assistant turn renamed `model` |
| RemoteClient.OpenAiContextShape | clients/streamlit_remote_client.py:165-169 | the OpenAI context holds at most twelve entries: the system prompt first, the user message last, and in between every one of the last ten chat messages unchanged, in order |
| RemoteClient.AnthropicContextShape | clients/streamlit_remote_client.py:226-230 | the Anthropic context has between one and eleven entries, ends with the user message, and every earlier entry is a user or assistant message with text content taken from the last ten chat messages |
| RemoteClient.GeminiContextShape | clients/streamlit_remote_client.py:296-300 | the Gemini history has at most ten turns and each comes from a user or assistant text message among the last ten chat messages |
| RemoteClient.PromptSentTwice | clients/streamlit_remote_client.py:587 | because the page appends the prompt to the chat before calling a handler that appends it again, the OpenAI and Anthropic contexts end with the same user message twice, and the Gemini history (:297-300) ends with the user message that `send_message` (:310) then sends again |
| RemoteClient.OpenAiLoop | clients/streamlit_remote_client.py:173-204 | while the reply asks for tools, each round appends the assistant reply and one tool message per call and records every call; the result is the content of the first reply without tool calls and every call made, in order |
| RemoteClient.HandleOpenAi | clients/streamlit_remote_client.py:150-204 | a missing key, a missing library or an empty tool list each return their own message and no tool log, the cache is only consulted after the key and library checks, and otherwise the handler returns the loop's tool log and final content |
| RemoteClient.OpenAiLoopHasNoCap | clients/streamlit_remote_client.py:183-202 | a model that always asks for a tool never lets the OpenAI loop finish, whatever bound is allowed |
| RemoteClient.OpenAiLoopFollowsModel | clients/streamlit_remote_client.py:183-202 | the OpenAI loop follows a tool-asking model through as many rounds as it asks for, with one tool record per round: there is no iteration cap |
| RemoteClient.OpenAiUsesInOrder | clients/streamlit_remote_client.py:183-204 | the tool log has at least one record per round and starts with the first reply's calls in their order |
| RemoteClient.RunAnthropic | clients/streamlit_remote_client.py:234-266 | the Anthropic loop on a local history and tool list gives the same tool log and outcome as the Anthropic provider's ten-call loop |
| RemoteClient.RunGemini | clients/streamlit_remote_client.py:302-331 | the Gemini loop on a chat started from the prior turns gives the same tool log and outcome as the Gemini provider's ten-iteration loop |
| RemoteClient.HandleAnthropic | clients/streamlit_remote_client.py:210-269 | the setup errors return their own message and no tool log; otherwise the tool log and either the model's answer or "❌ Max tool calls exceeded." |
| RemoteClient.HandleGemini | clients/streamlit_remote_client.py:272-334 | the setup errors return their own message and no tool log; otherwise the tool log and either the model's text or "❌ Max tool calls exceeded." |
| RemoteClient.AnthropicCap | clients/streamlit_remote_client.py:235-266 | a model that always asks for tools is called exactly ten times and the handler answers with the cap message |
| RemoteClient.GeminiCap | clients/streamlit_remote_client.py:307-331 | a model that always calls a function is called ten times, ten tool calls are recorded and the handler answers with the cap message |
| LlmClient.Answer | clients/llm_client.py:204-219 | the calls of a round are made one at a time in request order; no more calls are made than asked for, and every call is answered when none raised |
| LlmClient.AnswerTexts | clients/llm_client.py:211-212 | the k-th text is `content[0].text` of the reply to the k-th call, made as the session's (start + k)-th call; a failure is the exception from the call right after the last text |
| LlmClient.FailureSticks | clients/llm_client.py:204-219 | once a call raises, no later call of the round is made and the round's result stays what it was |
| LlmClient.AnswerPrefix | clients/llm_client.py:204-219 | a round's first n answers depend only on its first n calls |
| LlmClient.ToolEntries | clients/llm_client.py:215-219 | a round contributes one `tool` entry per text read |
| LlmClient.ToolEntriesSnoc | clients/llm_client.py:215-219 | one more text appends exactly one `tool` entry, carrying that call's id and the text |
| LlmClient.RoundLayout | clients/llm_client.py:201-219 | after a tool round the history is what was sent, then the assistant message, then the k-th call's `tool` entry at offset k |
| LlmClient.SummaryLayout | clients/llm_client.py:201-234 | after the summary the history is the tool round followed by the summary as an assistant message |
| LlmClient.Requests | clients/llm_client.py:272-275 | the requests of a Claude reply are its `tool_use` blocks, one each, with their id, name and input, in order |
| LlmClient.RequestsSnoc | clients/llm_client.py:272-273 | looking at one more block adds a request exactly when it is a `tool_use` block |
| LlmClient.RequestsPrefix | clients/llm_client.py:272-273 | the requests of a prefix of a reply are a prefix of the reply's requests |
| LlmClient.RequestsStep | clients/llm_client.py:272-287 | a `tool_use` block at position j is the next request after those found among the first j blocks; any other block adds none |
| LlmClient.Results | clients/llm_client.py:283-287 | a Claude round contributes one `tool_result` per text read |
| LlmClient.ResultsSnoc | clients/llm_client.py:283-287 | one more text appends exactly one `tool_result`, carrying that block's id and the text |
| LlmClient.CoveredStart | clients/llm_client.py:270-272 | before any block is looked at, no request has been found |
| LlmClient.CoveredEnd | clients/llm_client.py:272-287 | once every block is looked at, every request has been found |
| LlmClient.FirstBlockText | clients/llm_client.py:302-305 | `content[0].text` succeeds exactly when the first block is a text block, and gives its text; an empty reply raises an index error, any other first block an attribute error |
| LlmClient.LlmToolCaller.constructor | clients/llm_client.py:45-53 | a new caller keeps its provider and session and starts with an empty conversation history |
| LlmClient.LlmToolCaller.CallNext | clients/llm_client.py:204-219 | one tool call: the session logs it, and its text is appended as a `tool` entry unless reading it raises |
| LlmClient.LlmToolCaller.CallTools | clients/llm_client.py:204-219 | the loop over an OpenAI message's tool calls makes them in order until one raises; the history gains one `tool` entry per text and the session logs exactly the calls made |
| LlmClient.LlmToolCaller.HandleWithOpenAi | clients/llm_client.py:164-243 | the library and key checks come first and change nothing; otherwise the user message is appended, and either the direct answer or the tool round plus summary is appended and returned, with an exception from a tool call escaping |
| LlmClient.LlmToolCaller.CallToolBlocks | clients/llm_client.py:270-287 | the loop over a Claude reply makes one call per `tool_use` block, skipping other blocks, until one raises; it collects one `tool_result` per text and the session logs exactly the calls made |
| LlmClient.LlmToolCaller.HandleWithAnthropic | clients/llm_client.py:245-305 | the library and key checks come first; the conversation history is neither read nor changed; the answer is the first block's text of the summary when tools were used, else of the first reply |
| LlmClient.LlmToolCaller.HandleUserInput | clients/llm_client.py:307-317 | "openai" and "anthropic" dispatch to their handlers, with the setup errors turned into their messages; any other provider gets "❌ Unknown provider: " and its name, with no call and no history change |
| LlmClient.OpenAiRefusals | clients/llm_client.py:166-171 | without the library or the key the OpenAI handler returns the matching error, leaves the history alone and calls no tool |
| LlmClient.OpenAiDirectAnswer | clients/llm_client.py:176-243 | a reply without tool calls adds the user message and the reply to the history, returns the reply's content and calls no tool |
| LlmClient.OpenAiHistoryGrows | clients/llm_client.py:164-243 | the history is only appended to; after a successful setup the user message comes right after the old entries and no later entry is a plain user message |
| LlmClient.OpenAiSingleToolRound | clients/llm_client.py:197-236 | a reply with tool calls gives exactly one round: the assistant message, the k-th call's `tool` entry with its id and reply text, then the summary, which is returned; each call is made once, in order |
| LlmClient.OpenAiRoundShape | clients/llm_client.py:197-236 | a completed tool round is exactly: the summary returned, the history extended by the round and the summary, and every requested call made |
| LlmClient.SummaryCarriesReplies | clients/llm_client.py:201-234 | the history a completed round leaves holds, at fixed positions, the assistant message, each call's id with the text of its reply, and the summary |
| LlmClient.OpenAiToolFailure | clients/llm_client.py:204-212 | a tool call that raises ends the turn with its exception: no summary is asked for, the calls made are a prefix ending with the failing one, and the history keeps what was appended before it |
| LlmClient.ClaudeSingleRound | clients/llm_client.py:259-305 | Claude is asked for tools once: the calls made are, in order, a prefix of the first reply's `tool_use` blocks, and all of them unless one raised |
| LlmClient.ClaudeAnswers | clients/llm_client.py:289-305 | with no `tool_use` block no tool is called and the first reply's first text is returned; otherwise the summary, asked with one `tool_result` per block in order with its id, gives the answer |
| LlmClient.ClaudeRefusals | clients/llm_client.py:247-252 | without the library or the key the Claude handler returns the matching error and calls no tool |
| DynamicClient.Entity | clients/dynamic_client.py:151-153 | a match gives an `entity` exactly when its pattern has a group, and it is the capture upper-cased |
| DynamicClient.FirstPatternSpec | clients/dynamic_client.py:147-149 | the pattern search of one intent finds nothing exactly when none of its patterns matches, and otherwise the match of the first pattern, in list order, that matches |
| DynamicClient.Detect | clients/dynamic_client.py:136-156 | a detected intent is always one of the table's intents |
| DynamicClient.DetectIsFirstHit | clients/dynamic_client.py:136-156 | no intent is detected exactly when no pattern of any intent matches; otherwise the intent is that of the first matching pattern in table order, with its entity taken from that match |
| DynamicClient.DetectFirstHit | clients/dynamic_client.py:146-154 | whenever a given pattern is the first to match in table order, it decides the detection |
| DynamicClient.ListQmgrsComesFirst | clients/dynamic_client.py:50-72 | a request that a `list_qmgrs` pattern matches is a `list_qmgrs` request even when a `list_queues` pattern matches it too |
| DynamicClient.DetectEntityUpper | clients/dynamic_client.py:151-153 | a detected entity is always upper case |
| DynamicClient.ExtractQueueManager | clients/dynamic_client.py:158-173 | there is no queue manager exactly when neither pattern matches; the name after on/from/in/for wins over a standalone upper-case word, and the result is upper case |
| DynamicClient.MqscCommand | clients/dynamic_client.py:250-400 | every queue-manager handler runs a read-only `DISPLAY` command, and the depth request runs `DISPLAY QLOCAL(<queue>)` whatever the queue name, alias and remote queues included |
| DynamicClient.RunmqscArgs | clients/dynamic_client.py:266-269 | the `runmqsc` arguments hold exactly `qmgr_name` and `mqsc_command` |
| DynamicClient.Route | clients/dynamic_client.py:175-224 | an unrecognised request gets the help text; `list_qmgrs` and `check_version` call `dspmq` and `dspmqver` with no arguments; every other intent asks for a queue manager when none is known, and otherwise runs its MQSC command on it, with `UNKNOWN` for a missing entity; a tool is called exactly in those cases |
| DynamicClient.DynamicMQClient.constructor | clients/dynamic_client.py:41-109 | a new client holds the intent table in declaration order and its session |
| DynamicClient.DynamicMQClient.DetectIntent | clients/dynamic_client.py:136-156 | the nested loop over intents and patterns computes exactly the first-match detection on the lower-cased, stripped request |
| DynamicClient.DynamicMQClient.CallAndShow | clients/dynamic_client.py:226-236 | a handler makes exactly one `call_tool`, then shows the tool, the command and the first content text, or "Error: " and the exception |
| DynamicClient.DynamicMQClient.HandleUserInput | clients/dynamic_client.py:175-224 | a request that routes to an answer calls no tool and returns that answer; one that routes to a tool makes exactly that one call and shows its result |
| DynamicClient.NoToolWithoutIntentOrQmgr | clients/dynamic_client.py:190-192 | a request no pattern matches gets the help text, and a queue-manager request without a queue manager gets its handler's reminder; neither calls a tool |
| SseClient.CallText | clients/streamlit_sse_client.py:91-106 | a tool call's text is the first content item's text, the "Command executed (No output)" notice when there is none, or "❌ Error: " with the exception text, the sub-exceptions of an exception group joined by "; " |
| SseClient.SpacesEnd | clients/streamlit_sse_client.py:126 | `\s*` ends inside the line, at or after where it starts |
| SseClient.NameEnd | clients/streamlit_sse_client.py:126 | the name run `[A-Z0-9_\.]+` ends inside the line and holds only name characters |
| SseClient.MatchAt | clients/streamlit_sse_client.py:126 | a match at a position needs the label there in any letter case, and captures a non-empty run of name characters |
| SseClient.SearchFrom | clients/streamlit_sse_client.py:126 | `re.search` captures, when it matches, a non-empty run of name characters |
| SseClient.SearchFromSpec | clients/streamlit_sse_client.py:126 | a line matches only if the label occurs in it |
| SseClient.LineCaptureSpec | clients/streamlit_sse_client.py:125-128 | the name a line contributes is non-empty, made of name characters only, and the line holds the label |
| SseClient.FoundSpec | clients/streamlit_sse_client.py:124-128 | the set built from the lines holds exactly the captures of the lines that match |
| SseClient.ExtractQmgrsFromSearch | clients/streamlit_sse_client.py:121-129 | the list returned has no duplicates and holds exactly the names that the lines of the output carry behind the label (in no particular order) |
| SseClient.NoLabelNoQmgrs | clients/streamlit_sse_client.py:121-129 | output in which no line holds the label names no queue manager |
| SseClient.LabelAtShape | clients/streamlit_sse_client.py:126 | wherever the label starts, a space follows an `e` and precedes an `m` |
| SseClient.NoLabelSiteNoLabel | clients/streamlit_sse_client.py:126 | a line with no space between an `e` and an `m` holds the label nowhere |
| SseClient.AllowedLineHasNoLabel | server/mqmcpserver.py:207-208 | a reachable-system line of the search tool's listing, built from fields without whitespace, never holds the label |
| SseClient.RestrictedLineHasNoLabel | server/mqmcpserver.py:211-213 | a restricted-system line of the search tool's listing, built from fields without whitespace, never holds the label |
| SseClient.ListingLinesUnbroken | server/mqmcpserver.py:206-215 | for fields without whitespace, no listing line contains a line break or the label |
| SseClient.ServerListingYieldsNoQmgrs | clients/streamlit_sse_client.py:121-129 | the search tool writes `QM:<name>`, but the page looks for `Queue Manager:`, so for fields without whitespace the tool's listing yields no queue manager and no `runmqsc` follows |
| SseClient.DetectQueueType | clients/streamlit_sse_client.py:151-171 | a `QR` prefix gives the remote kind with `DISPLAY QREMOTE`; otherwise a `QA` prefix gives the alias kind with `DISPLAY QALIAS`; any other name gets the local depth command, labelled "Local Queue" exactly when it starts with `QL` |
| SseClient.PrefixRulesDiffer | clients/streamlit_sse_client.py:156 | the page treats `QRX` as remote where the search tool, which wants `QR.`, infers no type; a `QR.` name is remote for both |
| SseClient.DepthCommandsDiffer | clients/streamlit_sse_client.py:156-160 | for a `QR` name the page runs `DISPLAY QREMOTE(...)` while the pattern-matching client's depth handler runs `DISPLAY QLOCAL(...) CURDEPTH`; the two commands differ |
| SseClient.ValidOps | clients/streamlit_sse_client.py:250 | the selectable operations are exactly the entries that are not section headers |
| SseClient.HeadersNotSelectable | clients/streamlit_sse_client.py:250 | a name listed only as a header can never be chosen |
| SseClient.ToolArgs | clients/streamlit_sse_client.py:258-263 | one argument per field of the operation, holding what was typed in it |
| SseClient.Missing | clients/streamlit_sse_client.py:269 | the missing parameters are exactly the operation's fields left empty |
| SseClient.FinalArgs | clients/streamlit_sse_client.py:274-288 | without a template the fixed arguments are laid over the typed ones; with one, a template key that was not typed is a KeyError, and otherwise `mqsc_command` is the filled template and only `qmgr_name` and `mqsc_command` are kept |
| SseClient.FixedArgsWin | clients/streamlit_sse_client.py:274-278 | a fixed argument overrides a typed one of the same name, and every other typed argument is passed on unchanged |
| SseClient.RunOn | clients/streamlit_sse_client.py:329-332 | each fan-out call is a `runmqsc` with exactly `qmgr_name` and `mqsc_command` |
| SseClient.FanOut | clients/streamlit_sse_client.py:328-333 | the fan-out makes one `runmqsc` per queue manager, in the given order, all with the same command |
| SseClient.RunWorkflow | clients/streamlit_sse_client.py:291-335 | a workflow searches for the stripped, upper-cased queue name, then runs the workflow's command on every queue manager the search output names, and on none when it names none |
| SseClient.Execute | clients/streamlit_sse_client.py:267-343 | empty fields are refused with their names; a template error is reported with its key; otherwise the workflow runs, or exactly one tool call with the final arguments |
| SseClient.FanOutShape | clients/streamlit_sse_client.py:313-335 | after its one search, a workflow makes only `runmqsc` calls, none with a hostname and all with the same command, and none at all when no queue manager was found |

## Left out

- Transport is not modelled: HTTP and SSE, the stdio server process, `ClientSession` set-up, `check_connection`, `verify_connectivity`, and `LLMToolCaller.connect`/`disconnect`. Each tool call is a function from its name and arguments to the MCP reply, or to the decoded REST reply or exception text on the server side.
- JSON decoding of REST replies and of tool-call arguments (`json.loads`) is not modelled. Replies arrive as parsed records, and tool arguments are maps from names to strings.
- Manifest.LoadFromDisk: cells are kept as the stripped text of the file. Two pandas conversions that the text search sees are not modelled. First, `extractedat` is converted by `pd.to_datetime(errors="coerce")` (server/mqmcpserver.py:102-103), so `df.astype(str)` at :170 searches the re-printed timestamp (`2024-01-15 10:30:00` for `2024-01-15T10:30:00`) or `NaT` for a date that does not parse, where the model searches the raw text. Second, an empty cell is NaN: it prints as `nan` in the search (:170), in the gate's `str(h)` (:199) and in the listing lines (:208, :214), and the `", ".join` of object types at :195 raises TypeError on a NaN type, where the model has the empty string in all of these places.
- pandas CSV parsing and column renaming are not modelled. The manifest is a sequence of string rows, and the file on disk is given as missing, unreadable, or its rows.
- The OpenAI, Anthropic and Gemini SDKs are not modelled. Each model is a function from the conversation it is sent to its reply. Any exception from an SDK is not modelled, so neither is the remote handlers' `except` branch that returns the traceback.
- `genai.protos`, `_build_tool_declarations` and `convert_mcp_tools_to_gemini_declarations` build foreign SDK objects and are not modelled.
- The pattern-matching client's regular expressions are an abstract search function. Only the order in which patterns are tried and what is done with a match are modelled. The SSE page's `Queue Manager:\s*([A-Z0-9_\.]+)` search is modelled concretely.
- Letter case is ASCII only. `Text.IsDigit` accepts only `0`–`9`: `str.isdigit()` (used on the first character of a distributed reply line, server/mqmcpserver.py:357) also accepts other Unicode digits such as `²` or `٣`, and those are not modelled as digits. Whitespace is the six characters of Python's `string.whitespace` (space, tab, newline, carriage return, vertical tab, form feed). `str.strip()` and the regular expression `\s` also treat `\x1c`–`\x1f`, `\x85` and the other Unicode spaces as whitespace; those characters are not modelled as whitespace.
- async/await is not modelled. Every loop runs sequentially.
- Streamlit rendering, session state display, CSS, spinners, expanders and widget labels are not modelled. Operation descriptions and argument labels in `OPERATIONS` are dropped; only field names and order are kept.
- `print` calls, the metrics logger and the wall-clock timing around tool calls are not modelled.
- The system prompts and `get_mcp_tools` are not modelled. The prompt is a parameter, and the fetched tool list is an input to `RemoteClient.ToolCache.Ensure`.
- SseClient.ExtractQmgrsFromSearch: Python turns a `set` into a `list` in an order that is not specified. The model returns the distinct names in some order and states only membership and distinctness.
- DynamicClient.Route: the final "I'm not sure how to help" branch of `handle_user_input` is not modelled, because every intent in the table has a handler and so the branch cannot be reached.
- DynamicClient.Entity: a pattern without a group gives no entity. The `('unknown', None)` versus `{}` distinction is kept as `Unrecognised` versus `Recognised(_, None)`. A group that took no part in the match (where Python would call `.upper()` on `None`) is not modelled.
- An exception that escapes a server tool (an unset `MQ_URL_BASE`) is the tool's `Err` result. How the MCP framework reports it to the client is not modelled.
- Exception messages are abstract strings. The class name in an `AttributeError` and the traceback text are not modelled.
- GeminiProvider.ModelHistory: only entries whose content is a string are kept, and any other entry is skipped. On the source's side, the assistant message with tool calls that the OpenAI provider appends to the shared history is an SDK message object, not a dict. `msg["role"]` on it raises `TypeError` before the `isinstance` test is reached, so the source fails where the model drops the entry.
- GeminiProvider.Chat: a setup error returns no usage record (`None`) where the source returns an empty dict.
- RemoteClient.HandleGemini: the remote Gemini handler's token usage is never read, so it is not modelled.
- RemoteClient.OpenAiLoop: Dafny needs the loop to terminate, so it is modelled only for a model that stops asking for tools within a ghost bound `fuel`. `RemoteClient.OpenAiLoopHasNoCap` shows that a model that always asks for tools never meets any bound, which is the source's unbounded loop.
- RemoteClient.HandleOpenAi: it requires the same termination bound, for the same reason, whenever the setup checks pass.
- The remote Streamlit handlers drive their Anthropic and Gemini loops through the provider loop functions. The OpenAI handler has its own uncapped loop.
- Other files are not part of this model:
  - the guided, basic and OpenAI Streamlit clients;
  - `test_mcp_client.py` and `simple_test.py`;
  - `server/api_wrapper.py`;
  - `check_tokens.py`;
  - `clients/mq_tools/prompts.py`;
  - `clients/providers/base.py`, which is used only as the contract the providers are held to;
  - the tests, whose scenarios appear as lemmas where noted.
