/**
 * The pattern-matching client: a request in natural language is mapped to
 * an intent by the first of an ordered list of regular expressions that
 * matches it, a queue manager name is picked out of the request, and the
 * intent's handler either makes one tool call or answers without calling
 * anything.
 */
module DynamicClient {
  import opened Wrappers
  import opened Text
  import opened McpTypes

  /** The intents the client knows, in the order `intent_patterns` declares them. */
  datatype Intent =
    | ListQmgrs | CheckQueueDepth | ListQueues | ListChannels | QueueStatus
    | ChannelStatus | ListenerStatus | QmgrProps | CheckVersion

  /** A regular expression as `re.search` receives it: its source and whether `re.IGNORECASE` is passed. */
  datatype Pattern = Pattern(source: string, ignoreCase: bool)

  /** What `re.search` gives: no match, or a match with the capture of its first group when it has one. */
  datatype Match = NoMatch | Matched(group: Option<string>)

  /** The regular-expression engine: the first match of a pattern in a text. */
  type Search = (Pattern, string) -> Match

  /** The result of `detect_intent`: `('unknown', None)`, or an intent with its optional `entity` parameter. */
  datatype Detection = Unrecognised | Recognised(intent: Intent, entity: Option<string>)

  function P(source: string): Pattern
  {
    Pattern(source, true)
  }

  /** `self.intent_patterns`: intents in declaration order, each with its patterns in list order. */
  const IntentPatterns: seq<(Intent, seq<Pattern>)> := [
    (ListQmgrs, [P("list.*queue\\s*managers?"), P("show.*queue\\s*managers?"), P("display.*queue\\s*managers?"),
                 P("what.*queue\\s*managers?"), P("get.*queue\\s*managers?"), P("\\bdspmq\\b")]),
    (CheckQueueDepth, [P("depth.*(?:of|for)\\s+([\\w\\.]+)"), P("how\\s+many.*messages.*(?:in|on)\\s+([\\w\\.]+)"),
                       P("check.*queue\\s+([\\w\\.]+)"), P("([\\w\\.]+)\\s+depth"), P("messages.*(?:in|on)\\s+([\\w\\.]+)")]),
    (ListQueues, [P("list.*queues?"), P("show.*queues?"), P("display.*queues?"), P("what.*queues?"),
                  P("get.*queues?"), P("all.*queues?")]),
    (ListChannels, [P("list.*channels?"), P("show.*channels?"), P("display.*channels?"), P("what.*channels?"),
                    P("get.*channels?")]),
    (QueueStatus, [P("queue\\s*status.*(?:of|for)\\s+([\\w\\.]+)"), P("status.*queue\\s+([\\w\\.]+)"),
                   P("check\\s*queue\\s*([\\w\\.]+)")]),
    (ChannelStatus, [P("channel\\s*status.*(?:of|for)\\s+([\\w\\.]+)"), P("status.*channel\\s+([\\w\\.]+)"),
                     P("is\\s+channel\\s+([\\w\\.]+)\\s+running")]),
    (ListenerStatus, [P("listener\\s*status"), P("show\\s*listeners"), P("list\\s*listeners")]),
    (QmgrProps, [P("properties.*(?:of|for)\\s+queue\\s*manager"), P("qmgr\\s*info"), P("display\\s*qmgr")]),
    (CheckVersion, [P("\\bversion\\b"), P("\\bdspmqver\\b"), P("installation\\s*info"), P("what\\s*version"),
                    P("show\\s*version"), P("mq\\s*version")])
  ]

  /** `extract_queue_manager`'s first pattern, tried ignoring case. */
  const AfterPreposition: Pattern := Pattern("(?:on|from|in|for)\\s+([A-Z0-9_\\.]+)", true)

  /** `extract_queue_manager`'s second pattern, tried as written. */
  const StandaloneName: Pattern := Pattern("\\b([A-Z][A-Z0-9_\\.]{2,})\\b", false)

  /** The default entity when the matching pattern captured nothing. */
  const UnknownEntity: string := "UNKNOWN"

  /** `_handle_unknown_intent`'s help text, line by line. */
  const HelpText: string :=
    "\n"
    + "[HELP] I didn't understand that request. Here are some examples:\n"
    + "\n"
    + "List Queue Managers:\n"
    + "   - \"List all queue managers\"\n"
    + "   - \"Show queue managers\"\n"
    + "   - \"dspmq\"\n"
    + "\n"
    + "Check Queue Depth:\n"
    + "   - \"What's the depth of MYQUEUE on QM1?\"\n"
    + "   - \"Check queue MYQUEUE\"\n"
    + "   - \"How many messages in MYQUEUE?\"\n"
    + "\n"
    + "List Queues:\n"
    + "   - \"List all queues on QM1\"\n"
    + "   - \"Show queues\"\n"
    + "\n"
    + "List Channels:\n"
    + "   - \"List channels on QM1\"\n"
    + "   - \"Show all channels\"\n"
    + "\n"
    + "Queue Status:\n"
    + "   - \"Status of MYQUEUE on QM1\"\n"
    + "   - \"Check MYQUEUE\"\n"

  // ---------------------------------------------------------------------
  // detect_intent
  // ---------------------------------------------------------------------

  /** The `entity` parameter of a match: its capture, upper-cased; none when the pattern has no group. */
  function Entity(m: Match): (e: Option<string>)
    ensures e.Some? <==> m.Matched? && m.group.Some?
    ensures e.Some? ==> e.value == Upper(m.group.value) && Upper(e.value) == e.value
  {
    if m.Matched? && m.group.Some? then Some(Upper(m.group.value)) else None
  }

  /** The first match among `patterns[j..]`. */
  function FirstPattern(patterns: seq<Pattern>, search: Search, text: string, j: nat): Option<Match>
    requires j <= |patterns|
    decreases |patterns| - j
  {
    if j == |patterns| then None
    else if search(patterns[j], text).Matched? then Some(search(patterns[j], text))
    else FirstPattern(patterns, search, text, j + 1)
  }

  /** The detection made from `table[i..]`: the first intent one of whose patterns matches, so always an intent of the table. */
  function Detect(table: seq<(Intent, seq<Pattern>)>, search: Search, text: string, i: nat): (d: Detection)
    requires i <= |table|
    ensures d.Recognised? ==> exists k | i <= k < |table| :: table[k].0 == d.intent
    decreases |table| - i
  {
    if i == |table| then Unrecognised
    else match FirstPattern(table[i].1, search, text, 0)
      case Some(m) => Recognised(table[i].0, Entity(m))
      case None => Detect(table, search, text, i + 1)
  }

  /** The text `detect_intent` matches against: lower-cased, then stripped. */
  function Normalize(userInput: string): string
  {
    Strip(Lower(userInput))
  }

  /** Pattern `j` of intent `i` matches, and no pattern before it, in table order, does. */
  predicate FirstHit(table: seq<(Intent, seq<Pattern>)>, search: Search, text: string, i: nat, j: nat)
  {
    && i < |table| && j < |table[i].1|
    && search(table[i].1[j], text).Matched?
    && (forall i', j' | 0 <= i' < i && 0 <= j' < |table[i'].1| :: search(table[i'].1[j'], text) == NoMatch)
    && (forall j' | 0 <= j' < j :: search(table[i].1[j'], text) == NoMatch)
  }

  /** `FirstPattern` finds the first pattern at or after `j` that matches, and nothing when none does. */
  lemma {:induction false} FirstPatternSpec(patterns: seq<Pattern>, search: Search, text: string, j: nat)
    requires j <= |patterns|
    ensures var r := FirstPattern(patterns, search, text, j);
      && (r.None? <==> forall k | j <= k < |patterns| :: search(patterns[k], text) == NoMatch)
      && (r.Some? ==> exists k | j <= k < |patterns| ::
            && r.value == search(patterns[k], text) && r.value.Matched?
            && forall k' | j <= k' < k :: search(patterns[k'], text) == NoMatch)
    decreases |patterns| - j
  {
    if j < |patterns| && !search(patterns[j], text).Matched? {
      FirstPatternSpec(patterns, search, text, j + 1);
      var r := FirstPattern(patterns, search, text, j);
      if r.Some? {
        var k :| j + 1 <= k < |patterns| && r.value == search(patterns[k], text) && r.value.Matched?
          && forall k' | j + 1 <= k' < k :: search(patterns[k'], text) == NoMatch;
        assert forall k' | j <= k' < k :: search(patterns[k'], text) == NoMatch;
      }
    }
  }

  /**
   * Detection is first-match: the intent found is the intent of the first
   * pattern, in table order, that matches, and its entity comes from that
   * match; no intent is found exactly when no pattern matches.
   */
  lemma {:induction false} DetectIsFirstHit(table: seq<(Intent, seq<Pattern>)>, search: Search, text: string, i: nat)
    requires i <= |table|
    requires forall i', j' | 0 <= i' < i && 0 <= j' < |table[i'].1| :: search(table[i'].1[j'], text) == NoMatch
    ensures var d := Detect(table, search, text, i);
      && (d.Unrecognised? <==> forall i', j' | 0 <= i' < |table| && 0 <= j' < |table[i'].1| :: search(table[i'].1[j'], text) == NoMatch)
      && (d.Recognised? ==>
            exists i': nat, j': nat :: FirstHit(table, search, text, i', j') && i' >= i
              && d == Recognised(table[i'].0, Entity(search(table[i'].1[j'], text))))
    decreases |table| - i
  {
    if i < |table| {
      FirstPatternSpec(table[i].1, search, text, 0);
      var r := FirstPattern(table[i].1, search, text, 0);
      if r.Some? {
        var k :| 0 <= k < |table[i].1| && r.value == search(table[i].1[k], text) && r.value.Matched?
          && forall k' | 0 <= k' < k :: search(table[i].1[k'], text) == NoMatch;
        assert FirstHit(table, search, text, i, k);
      } else {
        DetectIsFirstHit(table, search, text, i + 1);
      }
    }
  }

  /** Whenever pattern `j` of intent `i` is the first to match, that is the detection made from any `k <= i` on. */
  lemma {:induction false} DetectFirstHit(table: seq<(Intent, seq<Pattern>)>, search: Search, text: string, i: nat, j: nat, k: nat)
    requires FirstHit(table, search, text, i, j) && k <= i
    ensures Detect(table, search, text, k) == Recognised(table[i].0, Entity(search(table[i].1[j], text)))
    decreases i - k
  {
    FirstPatternSpec(table[k].1, search, text, 0);
    if k < i {
      assert forall j' | 0 <= j' < |table[k].1| :: search(table[k].1[j'], text) == NoMatch;
      DetectFirstHit(table, search, text, i, j, k + 1);
    } else {
      var r := FirstPattern(table[i].1, search, text, 0);
      assert r.Some? by {
        assert search(table[i].1[j], text).Matched?;
      }
      var m :| 0 <= m < |table[i].1| && r.value == search(table[i].1[m], text) && r.value.Matched?
        && forall k' | 0 <= k' < m :: search(table[i].1[k'], text) == NoMatch;
      assert !(m < j) && !(j < m);
    }
  }

  /**
   * Intents are tried in declaration order: a request that one of the
   * `list_qmgrs` patterns matches is a `list_qmgrs` request, even when a
   * `list_queues` pattern matches it too.
   */
  lemma ListQmgrsComesFirst(table: seq<(Intent, seq<Pattern>)>, search: Search, text: string, j: nat)
    requires table == IntentPatterns
    requires j < |table[0].1| && search(table[0].1[j], text).Matched?
    ensures Detect(table, search, text, 0).Recognised?
    ensures Detect(table, search, text, 0).intent == ListQmgrs
  {
    FirstPatternSpec(table[0].1, search, text, 0);
  }

  /** An entity, when there is one, is upper case. */
  lemma {:induction false} DetectEntityUpper(table: seq<(Intent, seq<Pattern>)>, search: Search, text: string, i: nat)
    requires i <= |table|
    ensures var d := Detect(table, search, text, i);
      d.Recognised? && d.entity.Some? ==> Upper(d.entity.value) == d.entity.value
    decreases |table| - i
  {
    if i < |table| && FirstPattern(table[i].1, search, text, 0).None? {
      DetectEntityUpper(table, search, text, i + 1);
    }
  }

  // ---------------------------------------------------------------------
  // extract_queue_manager
  // ---------------------------------------------------------------------

  /** `match.group(1)`, for a pattern with one group. */
  function Capture(m: Match): string
    requires m.Matched?
  {
    m.group.GetOr("")
  }

  /**
   * `extract_queue_manager(user_input)`: the name after `on`, `from`, `in` or
   * `for` when there is one, else the first standalone upper-case word of
   * three or more characters, upper-cased; both patterns see the request as
   * typed.
   */
  function ExtractQueueManager(search: Search, userInput: string): (q: Option<string>)
    ensures q.None? <==> search(AfterPreposition, userInput) == NoMatch && search(StandaloneName, userInput) == NoMatch
    ensures search(AfterPreposition, userInput).Matched? ==> q == Some(Upper(Capture(search(AfterPreposition, userInput))))
    ensures q.Some? ==> Upper(q.value) == q.value
  {
    var first := search(AfterPreposition, userInput);
    if first.Matched? then Some(Upper(Capture(first)))
    else
      var second := search(StandaloneName, userInput);
      if second.Matched? then Some(Upper(Capture(second)))
      else None
  }

  // ---------------------------------------------------------------------
  // handle_user_input and the handlers
  // ---------------------------------------------------------------------

  /** What a handler does: answer without a tool, or call one tool and show its command. */
  datatype Plan =
    | Help
    | AskForQmgr(intent: Intent)
    | Invoke(tool: string, args: Args, shown: string)

  /** `if not qmgr`: no name, or an empty one. */
  predicate Known(qmgr: Option<string>)
  {
    qmgr.Some? && qmgr.value != ""
  }

  /** The intents whose handler runs an MQSC command on one queue manager. */
  predicate QmgrScoped(intent: Intent)
  {
    !(intent.ListQmgrs? || intent.CheckVersion?)
  }

  /**
   * The MQSC command each queue-manager handler runs, for the entity the
   * request names: always a read-only `DISPLAY`, and for a depth request
   * `DISPLAY QLOCAL(...)` whatever the queue name looks like, a remote or
   * alias queue's name included.
   */
  function MqscCommand(intent: Intent, entity: string): (command: string)
    requires QmgrScoped(intent)
    ensures StartsWith(command, "DISPLAY ")
    ensures intent == CheckQueueDepth ==> StartsWith(command, "DISPLAY QLOCAL(" + entity + ")")
  {
    match intent
    case CheckQueueDepth => "DISPLAY QLOCAL(" + entity + ") CURDEPTH"
    case ListQueues => "DISPLAY QLOCAL(*)"
    case ListChannels => "DISPLAY CHANNEL(*)"
    case QueueStatus => "DISPLAY QSTATUS(" + entity + ")"
    case ChannelStatus => "DISPLAY CHSTATUS(" + entity + ")"
    case ListenerStatus => "DISPLAY LSSTATUS(*)"
    case QmgrProps => "DISPLAY QMGR"
  }

  /** What each queue-manager handler answers when no queue manager is known. */
  function NeedQmgr(intent: Intent): string
    requires QmgrScoped(intent)
  {
    match intent
    case CheckQueueDepth => "I need to know which queue manager to check. Please specify it (e.g., 'Check depth of MYQUEUE on QM1')"
    case ListQueues => "Please specify the queue manager (e.g., 'List all queues on QM1')"
    case ListChannels => "Please specify the queue manager (e.g., 'Show channels on QM1')"
    case QueueStatus => "Please specify the queue manager (e.g., 'Status of MYQUEUE on QM1')"
    case ChannelStatus => "Please specify the queue manager (e.g., 'Status of channel TO.QM2 on QM1')"
    case ListenerStatus => "Please specify the queue manager (e.g., 'Show listeners on QM1')"
    case QmgrProps => "Please specify the queue manager (e.g., 'Show qmgr info for QM1')"
  }

  /** The `runmqsc` arguments of a queue-manager handler. */
  function RunmqscArgs(qmgr: string, command: string): (args: Args)
    ensures args.Keys == {"qmgr_name", "mqsc_command"}
    ensures args["qmgr_name"] == qmgr && args["mqsc_command"] == command
  {
    map["qmgr_name" := qmgr, "mqsc_command" := command]
  }

  /** The routing of `handle_user_input` and what the chosen handler sets out to do. */
  function Route(d: Detection, qmgr: Option<string>): (p: Plan)
    ensures d.Unrecognised? ==> p == Help
    ensures p.Invoke? <==> d.Recognised? && (!QmgrScoped(d.intent) || Known(qmgr))
    ensures d.Recognised? && QmgrScoped(d.intent) && !Known(qmgr) ==> p == AskForQmgr(d.intent)
    ensures d.Recognised? && d.intent == ListQmgrs ==> p == Invoke("dspmq", map[], "`dspmq`")
    ensures d.Recognised? && d.intent == CheckVersion ==> p == Invoke("dspmqver", map[], "`dspmqver`")
    ensures d.Recognised? && QmgrScoped(d.intent) && Known(qmgr) ==>
      var command := MqscCommand(d.intent, d.entity.GetOr(UnknownEntity));
      p == Invoke("runmqsc", RunmqscArgs(qmgr.value, command), "`runmqsc` (" + qmgr.value + ") -> `" + command + "`")
  {
    match d
    case Unrecognised => Help
    case Recognised(intent, entity) =>
      if intent == ListQmgrs then Invoke("dspmq", map[], "`dspmq`")
      else if intent == CheckVersion then Invoke("dspmqver", map[], "`dspmqver`")
      else if !Known(qmgr) then AskForQmgr(intent)
      else
        var command := MqscCommand(intent, entity.GetOr(UnknownEntity));
        Invoke("runmqsc", RunmqscArgs(qmgr.value, command), "`runmqsc` (" + qmgr.value + ") -> `" + command + "`")
  }

  /** What is answered without a tool: the help text, or the handler's request for a queue manager. */
  function AnswerText(p: Plan): string
    requires !p.Invoke?
  {
    match p
    case Help => HelpText
    case AskForQmgr(intent) => if QmgrScoped(intent) then NeedQmgr(intent) else ""
  }

  /** The handler's answer once its tool replied: the tool, the command and the first content text, or the error. */
  function Shown(tool: string, shown: string, reply: McpReply): (text: string)
  {
    match FirstContentText(reply)
    case Ok(t) => "**Tool:** `" + tool + "`\n**Command:** " + shown + "\n\n**Result:**\n" + t
    case Err(e) => "Error: " + e
  }

  /** The client: its intent table and the MCP session it calls tools through. */
  class DynamicMQClient {
    const intentPatterns: seq<(Intent, seq<Pattern>)>
    const session: McpSession

    constructor (session: McpSession)
      ensures intentPatterns == IntentPatterns && this.session == session
    {
      intentPatterns := IntentPatterns;
      this.session := session;
    }

    /** `detect_intent(user_input)`: intents in order, each intent's patterns in order, the first match wins. */
    method DetectIntent(search: Search, userInput: string) returns (d: Detection)
      ensures d == Detect(intentPatterns, search, Normalize(userInput), 0)
    {
      var text := Strip(Lower(userInput));
      var i := 0;
      while i < |intentPatterns|
        invariant i <= |intentPatterns|
        invariant Detect(intentPatterns, search, text, i) == Detect(intentPatterns, search, text, 0)
      {
        var (intent, patterns) := intentPatterns[i];
        var j := 0;
        while j < |patterns|
          invariant j <= |patterns|
          invariant FirstPattern(patterns, search, text, j) == FirstPattern(patterns, search, text, 0)
        {
          var m := search(patterns[j], text);
          if m.Matched? {
            var entity := None;
            if m.group.Some? {
              entity := Some(Upper(m.group.value));
            }
            return Recognised(intent, entity);
          }
          j := j + 1;
        }
        i := i + 1;
      }
      return Unrecognised;
    }

    /** The try-block every handler shares: one `call_tool`, then its answer or the error. */
    method CallAndShow(tool: string, args: Args, shown: string) returns (text: string)
      modifies session
      ensures session.calls == old(session.calls) + [ToolUse(tool, args)]
      ensures text == Shown(tool, shown, session.server(|old(session.calls)|, tool, args))
    {
      var reply := session.CallTool(tool, args);
      text := Shown(tool, shown, reply);
    }

    /**
     * `handle_user_input(user_input)`: detect the intent, answer with the
     * help text when there is none, otherwise pick out the queue manager and
     * run the intent's handler, which calls one tool or none.
     */
    method HandleUserInput(search: Search, userInput: string) returns (response: string)
      modifies session
      ensures var p := Route(Detect(intentPatterns, search, Normalize(userInput), 0), ExtractQueueManager(search, userInput));
        && (!p.Invoke? ==> response == AnswerText(p) && session.calls == old(session.calls))
        && (p.Invoke? ==>
              && session.calls == old(session.calls) + [ToolUse(p.tool, p.args)]
              && response == Shown(p.tool, p.shown, session.server(|old(session.calls)|, p.tool, p.args)))
    {
      var d := DetectIntent(search, userInput);
      if d.Unrecognised? {
        return HelpText;
      }
      var qmgr := ExtractQueueManager(search, userInput);
      var p := Route(d, qmgr);
      if p.Invoke? {
        response := CallAndShow(p.tool, p.args, p.shown);
      } else {
        response := AnswerText(p);
      }
    }
  }

  /**
   * A request no pattern matches gets the help text; a queue-manager
   * request without a queue manager gets that handler's reminder; neither
   * calls a tool.
   */
  lemma NoToolWithoutIntentOrQmgr(search: Search, userInput: string, table: seq<(Intent, seq<Pattern>)>)
    ensures var text := Normalize(userInput);
      var d := Detect(table, search, text, 0);
      && ((forall i, j | 0 <= i < |table| && 0 <= j < |table[i].1| :: search(table[i].1[j], text) == NoMatch) ==>
            Route(d, ExtractQueueManager(search, userInput)) == Help)
      && (d.Recognised? && QmgrScoped(d.intent) && !Known(ExtractQueueManager(search, userInput)) ==>
            Route(d, ExtractQueueManager(search, userInput)) == AskForQmgr(d.intent))
  {
    DetectIsFirstHit(table, search, Normalize(userInput), 0);
  }
}
