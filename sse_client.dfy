/**
 * The direct SSE client page: the user picks an operation from a fixed
 * table, fills in its arguments and runs one MCP tool, or, for the two
 * queue workflows, runs a search that locates the queue and then the same
 * MQSC command on every queue manager the search names.
 */
module SseClient {
  import opened Wrappers
  import opened Text
  import opened Seqs
  import opened McpTypes
  import QmgrSearch
  import DynamicClient

  const NoOutput: string := "✅ Command executed (No output)"
  const ErrorPrefix: string := "❌ Error: "
  const MissingPrefix: string := "⚠️ Missing required parameters: "

  /** The MCP server behind the endpoint: each `call_mcp_tool` opens a session of its own. */
  type Server = (string, Args) -> McpReply

  // ---------------------------------------------------------------------
  // call_mcp_tool
  // ---------------------------------------------------------------------

  /**
   * `call_mcp_tool(server_url, tool_name, arguments)`: the first content
   * text, a notice when there is none, or the error, which for an
   * exception group lists its sub-exceptions joined by `; `.
   */
  function CallText(r: McpReply): (t: string)
    ensures r.Content? && r.texts != [] ==> t == r.texts[0]
    ensures r == Content([]) ==> t == NoOutput
    ensures r.Raised? ==> t == ErrorPrefix + (if r.subMessages.Some? then Join(r.subMessages.value, "; ") else r.message)
  {
    match r
    case Content(texts) => if texts != [] then texts[0] else NoOutput
    case Raised(message, subMessages) =>
      match subMessages
      case Some(messages) => ErrorPrefix + Join(messages, "; ")
      case None => ErrorPrefix + message
  }

  // ---------------------------------------------------------------------
  // extract_qmgrs_from_search
  // ---------------------------------------------------------------------

  /** The label the search output is scanned for, compared ignoring case. */
  const Label: string := "queue manager:"

  /** The class `[A-Z0-9_\.]` under `re.IGNORECASE`. */
  predicate NameChar(c: char)
  {
    IsUpperLetter(c) || IsLowerLetter(c) || IsDigit(c) || c == '_' || c == '.'
  }

  /** The end of the run of whitespace starting at `i` (`\s*`). */
  function SpacesEnd(s: string, i: nat): (k: nat)
    requires i <= |s|
    ensures i <= k <= |s|
    decreases |s| - i
  {
    if i < |s| && IsSpace(s[i]) then SpacesEnd(s, i + 1) else i
  }

  /** The end of the run of name characters starting at `i`. */
  function NameEnd(s: string, i: nat): (k: nat)
    requires i <= |s|
    ensures i <= k <= |s|
    ensures forall m | i <= m < k :: NameChar(s[m])
    decreases |s| - i
  {
    if i < |s| && NameChar(s[i]) then NameEnd(s, i + 1) else i
  }

  /** The label starts at position `i` of the line, in any letter case. */
  predicate LabelAt(line: string, i: nat)
  {
    i + |Label| <= |line| && Lower(line[i..i + |Label|]) == Label
  }

  /** The match of `Queue Manager:\s*([A-Z0-9_\.]+)` starting at `i`, as its capture. */
  function MatchAt(line: string, i: nat): (m: Option<string>)
    requires i <= |line|
    ensures m.Some? ==> LabelAt(line, i) && m.value != [] && forall k | 0 <= k < |m.value| :: NameChar(m.value[k])
  {
    if LabelAt(line, i) then
      var a := SpacesEnd(line, i + |Label|);
      var b := NameEnd(line, a);
      if a < b then Some(line[a..b]) else None
    else None
  }

  /** `re.search`: the first start position at or after `i` where the pattern matches. */
  function SearchFrom(line: string, i: nat): (m: Option<string>)
    requires i <= |line|
    ensures m.Some? ==> m.value != [] && forall k | 0 <= k < |m.value| :: NameChar(m.value[k])
    decreases |line| - i
  {
    var m := MatchAt(line, i);
    if m.Some? then m
    else if i == |line| then None
    else SearchFrom(line, i + 1)
  }

  /** What one line contributes: `match.group(1).strip()`, when the line matches. */
  function LineCapture(line: string): Option<string>
  {
    match SearchFrom(line, 0)
    case Some(c) => Some(Strip(c))
    case None => None
  }

  /** The set `extract_qmgrs_from_search` builds from its lines. */
  function Found(lines: seq<string>): set<string>
  {
    if lines == [] then {}
    else
      var last := LineCapture(lines[|lines| - 1]);
      Found(lines[..|lines| - 1]) + (if last.Some? then {last.value} else {})
  }

  /** A line matches only where it holds the label, and its capture is a non-empty run of name characters. */
  lemma {:induction false} SearchFromSpec(line: string, i: nat)
    requires i <= |line|
    ensures SearchFrom(line, i).Some? ==> exists p | i <= p <= |line| :: LabelAt(line, p)
    decreases |line| - i
  {
    if MatchAt(line, i).None? && i < |line| {
      SearchFromSpec(line, i + 1);
    }
  }

  /** The capture of a line is a name: non-empty, of name characters only, and the line holds the label. */
  lemma LineCaptureSpec(line: string)
    ensures var c := LineCapture(line);
      c.Some? ==> c.value != [] && (forall k | 0 <= k < |c.value| :: NameChar(c.value[k]))
                  && exists p | 0 <= p <= |line| :: LabelAt(line, p)
  {
    SearchFromSpec(line, 0);
    var m := SearchFrom(line, 0);
    if m.Some? {
      StripNoSpace(m.value);
    }
  }

  /** The found set holds exactly the captures of the lines that match. */
  lemma {:induction false} FoundSpec(lines: seq<string>, q: string)
    ensures q in Found(lines) <==> exists k | 0 <= k < |lines| :: LineCapture(lines[k]) == Some(q)
  {
    if lines != [] {
      var n := |lines| - 1;
      var init := lines[..n];
      FoundSpec(init, q);
      assert forall k | 0 <= k < n :: init[k] == lines[k];
      if q in Found(init) {
        var k :| 0 <= k < n && LineCapture(init[k]) == Some(q);
        assert LineCapture(lines[k]) == Some(q);
      } else if q in Found(lines) {
        assert LineCapture(lines[n]) == Some(q);
      }
    }
  }

  /**
   * `extract_qmgrs_from_search(search_output)`: the distinct queue manager
   * names the lines of the output carry behind the label.
   */
  method ExtractQmgrsFromSearch(searchOutput: string) returns (qmgrs: seq<string>)
    ensures NoDups(qmgrs)
    ensures forall q :: q in qmgrs <==> q in Found(Split(searchOutput, "\n"))
  {
    var lines := Split(searchOutput, "\n");
    var found: set<string> := {};
    for k := 0 to |lines|
      invariant found == Found(lines[..k])
    {
      assert lines[..k + 1][..k] == lines[..k];
      var c := LineCapture(lines[k]);
      if c.Some? {
        found := found + {c.value};
      }
    }
    assert lines[..|lines|] == lines;
    qmgrs := [];
    var rest := found;
    while rest != {}
      invariant rest <= found
      invariant NoDups(qmgrs)
      invariant forall q :: q in qmgrs <==> q in found && q !in rest
      decreases |rest|
    {
      var q :| q in rest;
      qmgrs := qmgrs + [q];
      rest := rest - {q};
    }
  }

  /** Output in which no line holds the label names no queue manager. */
  lemma NoLabelNoQmgrs(lines: seq<string>)
    requires forall k, p | 0 <= k < |lines| && 0 <= p <= |lines[k]| :: !LabelAt(lines[k], p)
    ensures Found(lines) == {}
  {
    forall q ensures q !in Found(lines) {
      FoundSpec(lines, q);
      forall k | 0 <= k < |lines| ensures LineCapture(lines[k]).None? {
        LineCaptureSpec(lines[k]);
      }
    }
  }

  /** Where the label starts there is a space with an `e` before it and an `m` after it. */
  lemma LabelAtShape(line: string, i: nat)
    ensures LabelAt(line, i) ==>
      && line[i + 5] == ' ' && LowerChar(line[i + 4]) == 'e' && LowerChar(line[i + 6]) == 'm'
  {
    if i + |Label| <= |line| {
      var w := Lower(line[i..i + |Label|]);
      assert w[4] == LowerChar(line[i + 4]) && w[5] == LowerChar(line[i + 5]) && w[6] == LowerChar(line[i + 6]);
    }
  }

  /** No space in the line sits between an `e` and an `m`, so the label is nowhere in it. */
  predicate NoLabelSite(line: string)
  {
    forall p | 1 <= p < |line| - 1 && line[p] == ' ' :: !(LowerChar(line[p - 1]) == 'e' && LowerChar(line[p + 1]) == 'm')
  }

  lemma NoLabelSiteNoLabel(line: string)
    requires NoLabelSite(line)
    ensures forall p | 0 <= p <= |line| :: !LabelAt(line, p)
  {
    forall p | 0 <= p <= |line| ensures !LabelAt(line, p) {
      LabelAtShape(line, p);
    }
  }

  /** A listing field as the manifest holds it: no whitespace, so no line breaks either. */
  predicate Plain(s: string)
  {
    forall k | 0 <= k < |s| :: !IsSpace(s[k])
  }

  /** A reachable-system line of the search tool's listing never holds the label. */
  lemma AllowedLineHasNoLabel(t: QmgrSearch.Triple)
    requires Plain(t.0) && Plain(t.1) && Plain(t.2)
    ensures NoLabelSite(QmgrSearch.AllowedLine(t))
  {
    var line := QmgrSearch.AllowedLine(t);
    var b := 3 + |t.1|;
    var d := b + 6 + |t.0|;
    assert line == "QM:" + t.1 + " Host:" + t.0 + " Type:" + t.2;
    forall p | 1 <= p < |line| - 1
      ensures line[p] == ' ' ==> !(LowerChar(line[p - 1]) == 'e' && LowerChar(line[p + 1]) == 'm')
    {
      if p < 3 {
        assert line[p] == "QM:"[p];
      } else if p < b {
        assert line[p] == t.1[p - 3];
      } else if p == b {
        assert line[p + 1] == 'H';
      } else if p < b + 6 {
        assert line[p] == " Host:"[p - b];
      } else if p < d {
        assert line[p] == t.0[p - b - 6];
      } else if p == d {
        assert line[p + 1] == 'T';
      } else if p < d + 6 {
        assert line[p] == " Type:"[p - d];
      } else {
        assert line[p] == t.2[p - d - 6];
      }
    }
  }

  /** A restricted-system line of the search tool's listing never holds the label. */
  lemma RestrictedLineHasNoLabel(t: QmgrSearch.Triple)
    requires Plain(t.0) && Plain(t.1) && Plain(t.2)
    ensures NoLabelSite(QmgrSearch.RestrictedLine(t))
  {
    var line := QmgrSearch.RestrictedLine(t);
    var b := 3 + |t.1|;
    var d := b + 14 + |t.0|;
    assert line == "QM:" + t.1 + " [RESTRICTED: " + t.0 + "] Type:" + t.2;
    forall p | 1 <= p < |line| - 1
      ensures line[p] == ' ' ==> !(LowerChar(line[p - 1]) == 'e' && LowerChar(line[p + 1]) == 'm')
    {
      if p < 3 {
        assert line[p] == "QM:"[p];
      } else if p < b {
        assert line[p] == t.1[p - 3];
      } else if p == b {
        assert line[p + 1] == '[';
      } else if p == b + 13 {
        assert line[p - 1] == ':';
      } else if p < b + 14 {
        assert line[p] == " [RESTRICTED: "[p - b];
      } else if p < d {
        assert line[p] == t.0[p - b - 14];
      } else if p == d + 1 {
        assert line[p - 1] == ']';
      } else if p < d + 7 {
        assert line[p] == "] Type:"[p - d];
      } else {
        assert line[p] == t.2[p - d - 7];
      }
    }
  }

  /** Plain fields make plain-ish lines: no line break in either kind of listing line. */
  lemma ListingLinesUnbroken(allowed: seq<QmgrSearch.Triple>, restricted: seq<QmgrSearch.Triple>)
    requires forall t | t in allowed + restricted :: Plain(t.0) && Plain(t.1) && Plain(t.2)
    ensures forall line | line in QmgrSearch.ListingLines(allowed, restricted) :: '\n' !in line
    ensures forall line | line in QmgrSearch.ListingLines(allowed, restricted) :: NoLabelSite(line)
  {
    var lines := QmgrSearch.ListingLines(allowed, restricted);
    forall k | 0 <= k < |lines|
      ensures '\n' !in lines[k] && NoLabelSite(lines[k])
    {
      if k < |allowed| {
        var t := allowed[k];
        assert t in allowed + restricted;
        AllowedLineHasNoLabel(t);
        assert lines[k] == "QM:" + t.1 + " Host:" + t.0 + " Type:" + t.2;
      } else {
        var t := restricted[k - |allowed|];
        assert t in allowed + restricted;
        RestrictedLineHasNoLabel(t);
        assert lines[k] == "QM:" + t.1 + " [RESTRICTED: " + t.0 + "] Type:" + t.2;
      }
    }
  }

  /**
   * The search workflow never finds the queue managers the search tool
   * lists: the tool writes `QM:<name>`, while the page looks for
   * `Queue Manager:`, so for names, hosts and types without whitespace the
   * listing yields no queue manager and no `runmqsc` call follows.
   */
  lemma ServerListingYieldsNoQmgrs(search: string, allowed: seq<QmgrSearch.Triple>, restricted: seq<QmgrSearch.Triple>)
    requires forall t | t in allowed + restricted :: Plain(t.0) && Plain(t.1) && Plain(t.2)
    ensures Found(Split(QmgrSearch.Render(search, QmgrSearch.Listing(allowed, restricted)), "\n")) == {}
  {
    var lines := QmgrSearch.ListingLines(allowed, restricted);
    ListingLinesUnbroken(allowed, restricted);
    var pieces := Split(Join(lines, "\n"), "\n");
    if lines == [] {
      assert pieces == [""];
    } else {
      SplitJoin(lines, '\n');
    }
    forall k | 0 <= k < |pieces| ensures NoLabelSite(pieces[k]) {
      if lines != [] {
        assert pieces[k] in lines;
      }
    }
    forall k | 0 <= k < |pieces| ensures forall p | 0 <= p <= |pieces[k]| :: !LabelAt(pieces[k], p) {
      NoLabelSiteNoLabel(pieces[k]);
    }
    NoLabelNoQmgrs(pieces);
  }

  // ---------------------------------------------------------------------
  // detect_queue_type
  // ---------------------------------------------------------------------

  /** An MQSC command with one place for the queue name, `{queue}`. */
  datatype CommandTemplate = CommandTemplate(before: string, after: string)

  /** `template.format(queue=name)`. */
  function Format(t: CommandTemplate, name: string): string
  {
    t.before + name + t.after
  }

  /** The (label, icon, command template) triple `detect_queue_type` returns. */
  datatype QueueKind = QueueKind(typeLabel: string, icon: string, template: CommandTemplate)

  const RemoteKind: QueueKind := QueueKind("Remote Queue", "🌐", CommandTemplate("DISPLAY QREMOTE(", ")"))
  const AliasKind: QueueKind := QueueKind("Alias Queue", "🔀", CommandTemplate("DISPLAY QALIAS(", ")"))
  const LocalTemplate: CommandTemplate := CommandTemplate("DISPLAY QLOCAL(", ") CURDEPTH")

  /** `detect_queue_type(queue_name)`: by prefix, `QR` then `QA`, and the local depth command otherwise. */
  function DetectQueueType(name: string): (k: QueueKind)
    ensures StartsWith(name, "QR") ==> k == RemoteKind
    ensures !StartsWith(name, "QR") && StartsWith(name, "QA") ==> k == AliasKind
    ensures !StartsWith(name, "QR") && !StartsWith(name, "QA") ==>
      k.template == LocalTemplate && k.icon == "📦" && (k.typeLabel == "Local Queue" <==> StartsWith(name, "QL"))
  {
    if StartsWith(name, "QR") then RemoteKind
    else if StartsWith(name, "QA") then AliasKind
    else QueueKind(if StartsWith(name, "QL") then "Local Queue" else "Queue", "📦", LocalTemplate)
  }

  /**
   * The page and the search tool read prefixes differently: a name such as
   * `QRX` counts as remote here but gets no type filter from the tool,
   * which wants `QR.`; a `QR.` name is remote for both.
   */
  lemma PrefixRulesDiffer(name: string)
    requires Upper(name) == name
    ensures StartsWith(name, "QR.") ==> DetectQueueType(name) == RemoteKind && QmgrSearch.InferredType(None, name) == "QREMOTE"
    ensures StartsWith(name, "QR") && !StartsWith(name, "QR.") && !StartsWith(name, "QL.") && !StartsWith(name, "QA.") ==>
      DetectQueueType(name) == RemoteKind && QmgrSearch.InferredType(None, name) == ""
  {
    if StartsWith(name, "QR.") {
      assert name[..2] == name[..3][..2];
    }
  }

  /**
   * For a remote queue the page asks for `DISPLAY QREMOTE`, while the
   * pattern-matching client's depth handler asks for `DISPLAY QLOCAL ... CURDEPTH`
   * whatever the name.
   */
  lemma DepthCommandsDiffer(name: string)
    requires StartsWith(name, "QR")
    ensures Format(DetectQueueType(name).template, name) == "DISPLAY QREMOTE(" + name + ")"
    ensures DynamicClient.MqscCommand(DynamicClient.CheckQueueDepth, name) == "DISPLAY QLOCAL(" + name + ") CURDEPTH"
    ensures Format(DetectQueueType(name).template, name) != DynamicClient.MqscCommand(DynamicClient.CheckQueueDepth, name)
  {
    var a := Format(DetectQueueType(name).template, name);
    assert a[9] == 'R';
    assert DynamicClient.MqscCommand(DynamicClient.CheckQueueDepth, name)[9] == 'L';
  }

  // ---------------------------------------------------------------------
  // OPERATIONS and the argument assembly
  // ---------------------------------------------------------------------

  datatype SmartWorkflow = CheckDepth | CheckStatus

  /** `mqsc_template`: a command with one place for the argument `key`. */
  datatype MqscTemplate = MqscTemplate(before: string, key: string, after: string)

  /**
   * One entry of `OPERATIONS`: the empty placeholder, a section header, or
   * an operation with its tool, the arguments the user fills in (in order),
   * the fixed arguments, and optionally a command template or a workflow.
   */
  datatype OpConfig =
    | Placeholder
    | Header
    | Operation(tool: string, args: seq<string>, fixedArgs: Args, template: Option<MqscTemplate>,
                workflow: Option<SmartWorkflow>)

  const Operations: seq<(string, OpConfig)> := [
    ("Select an operation...", Placeholder),
    ("--- Infrastructure ---", Header),
    ("List Queue Managers", Operation("dspmq", [], map[], None, None)),
    ("Check MQ Version", Operation("dspmqver", [], map[], None, None)),
    ("Show Queue Manager Properties", Operation("runmqsc", ["qmgr_name"], map["mqsc_command" := "DISPLAY QMGR"], None, None)),
    ("--- Queues ---", Header),
    ("List all Queues", Operation("runmqsc", ["qmgr_name"], map["mqsc_command" := "DISPLAY QLOCAL(*)"], None, None)),
    ("Check Queue Depth", Operation("runmqsc", ["queue_name"], map[], None, Some(CheckDepth))),
    ("Check Queue Status", Operation("runmqsc", ["queue_name"], map[], None, Some(CheckStatus))),
    ("--- Channels & Listeners ---", Header),
    ("Show Channels", Operation("runmqsc", ["qmgr_name"], map["mqsc_command" := "DISPLAY CHANNEL(*)"], None, None)),
    ("Check Channel Status", Operation("runmqsc", ["qmgr_name", "channel_name"], map[],
                                       Some(MqscTemplate("DISPLAY CHSTATUS(", "channel_name", ")")), None)),
    ("--- Custom ---", Header),
    ("Run Custom MQSC Command", Operation("runmqsc", ["qmgr_name", "mqsc_command"], map[], None, None)),
    ("--- Discovery ---", Header),
    ("Find a Queue/Channel", Operation("search_qmgr_dump", ["search_string"], map[], None, None))
  ]

  /** `valid_ops`: the names of the entries that are not headers, in table order. */
  function ValidOps(ops: seq<(string, OpConfig)>): (names: seq<string>)
    ensures forall k | 0 <= k < |ops| && !ops[k].1.Header? :: ops[k].0 in names
    ensures forall i | 0 <= i < |names| :: exists k | 0 <= k < |ops| :: ops[k].0 == names[i] && !ops[k].1.Header?
  {
    var entries := Filter(ops, (e: (string, OpConfig)) => !e.1.Header?);
    var names := MapSeq(entries, (e: (string, OpConfig)) => e.0);
    forall k | 0 <= k < |ops| && !ops[k].1.Header? ensures ops[k].0 in names {
      assert ops[k] in entries;
      var i :| 0 <= i < |entries| && entries[i] == ops[k];
      assert names[i] == ops[k].0;
    }
    forall i | 0 <= i < |names| ensures exists k | 0 <= k < |ops| :: ops[k].0 == names[i] && !ops[k].1.Header? {
      assert entries[i] in ops;
    }
    names
  }

  /** A name that is listed only as a header can never be chosen. */
  lemma HeadersNotSelectable(ops: seq<(string, OpConfig)>, name: string)
    requires forall k | 0 <= k < |ops| && ops[k].0 == name :: ops[k].1.Header?
    ensures name !in ValidOps(ops)
  {
    var names := ValidOps(ops);
    forall i | 0 <= i < |names| ensures names[i] != name {
      var k :| 0 <= k < |ops| && ops[k].0 == names[i] && !ops[k].1.Header?;
    }
  }

  /** `tool_args`: one entry per argument of the operation, holding what was typed for it. */
  function ToolArgs(args: seq<string>, input: string -> string): (m: Args)
    ensures m.Keys == set k | k in args
    ensures forall k | k in m :: m[k] == input(k)
  {
    map k | k in args :: input(k)
  }

  /** `missing_params`: the arguments left empty, in the operation's order. */
  function Missing(args: seq<string>, input: string -> string): (ks: seq<string>)
    ensures forall k :: k in ks <==> k in args && input(k) == ""
  {
    Filter(args, (k: string) => input(k) == "")
  }

  /**
   * `final_args`: the typed arguments with the fixed ones on top; with a
   * template, `mqsc_command` is the template filled from the typed
   * arguments and only `qmgr_name` and `mqsc_command` are kept. A template
   * naming an argument that was not typed is the `KeyError`, as its key.
   */
  function FinalArgs(op: OpConfig, typed: Args): (r: Result<Args>)
    requires op.Operation?
    ensures op.template.None? ==> r == Ok(typed + op.fixedArgs)
    ensures op.template.Some? ==> (r.Err? <==> op.template.value.key !in typed)
    ensures op.template.Some? && r.Ok? ==>
      var t := op.template.value;
      && r.value.Keys <= {"qmgr_name", "mqsc_command"}
      && "mqsc_command" in r.value && r.value["mqsc_command"] == t.before + typed[t.key] + t.after
      && ("qmgr_name" in typed + op.fixedArgs ==>
            "qmgr_name" in r.value && r.value["qmgr_name"] == (typed + op.fixedArgs)["qmgr_name"])
  {
    var merged := typed + op.fixedArgs;
    match op.template
    case None => Ok(merged)
    case Some(t) =>
      if t.key !in typed then Err(t.key)
      else
        var withCommand := merged["mqsc_command" := t.before + typed[t.key] + t.after];
        Ok(map k | k in withCommand && k in {"qmgr_name", "mqsc_command"} :: withCommand[k])
  }

  /** Without a template, a fixed argument wins over a typed one and every other typed argument is passed on. */
  lemma FixedArgsWin(op: OpConfig, typed: Args)
    requires op.Operation? && op.template.None?
    ensures var f := FinalArgs(op, typed).value;
      && (forall k | k in op.fixedArgs :: f[k] == op.fixedArgs[k])
      && (forall k | k in typed && k !in op.fixedArgs :: f[k] == typed[k])
      && f.Keys == typed.Keys + op.fixedArgs.Keys
  {
  }

  // ---------------------------------------------------------------------
  // Executing an operation
  // ---------------------------------------------------------------------

  /** One `render_tool_call` block: the tool called, its arguments and the text it gave. */
  datatype Rendered = Rendered(tool: string, args: Args, text: string)

  /** What pressing Execute leads to. */
  datatype Run =
    | MissingParams(message: string)
    | TemplateError(message: string)
    | Workflow(queue: string, search: Rendered, qmgrs: seq<string>, runs: seq<Rendered>)
    | Executed(block: Rendered)

  /** A tool call through `call_mcp_tool`, as rendered. */
  function Call(server: Server, tool: string, args: Args): Rendered
  {
    Rendered(tool, args, CallText(server(tool, args)))
  }

  /** The `runmqsc` call of the fan-out on one queue manager. */
  function RunOn(server: Server, command: string, qmgr: string): (b: Rendered)
    ensures b.tool == "runmqsc" && b.args.Keys == {"qmgr_name", "mqsc_command"}
    ensures b.args["qmgr_name"] == qmgr && b.args["mqsc_command"] == command
  {
    Call(server, "runmqsc", map["qmgr_name" := qmgr, "mqsc_command" := command])
  }

  /** The command template of a workflow for a normalised queue name. */
  function WorkflowTemplate(w: SmartWorkflow, queue: string): CommandTemplate
  {
    match w
    case CheckDepth => DetectQueueType(queue).template
    case CheckStatus => CommandTemplate("DISPLAY QSTATUS(", ") TYPE(QUEUE) ALL")
  }

  /** Step 3 of the workflow: one `runmqsc` per queue manager, in the order given, all with the same command. */
  method FanOut(server: Server, command: string, qmgrs: seq<string>) returns (runs: seq<Rendered>)
    ensures |runs| == |qmgrs|
    ensures forall k | 0 <= k < |qmgrs| :: runs[k] == RunOn(server, command, qmgrs[k])
  {
    runs := [];
    for k := 0 to |qmgrs|
      invariant |runs| == k
      invariant forall m | 0 <= m < k :: runs[m] == RunOn(server, command, qmgrs[m])
    {
      var args := map["qmgr_name" := qmgrs[k], "mqsc_command" := command];
      var res := CallText(server("runmqsc", args));
      runs := runs + [Rendered("runmqsc", args, res)];
    }
  }

  /**
   * What a workflow run is: the search for the stripped, upper-cased queue
   * name, the distinct queue managers its output names (in some order), and
   * one `runmqsc` per queue manager with the workflow's command.
   */
  ghost predicate WorkflowRun(server: Server, w: SmartWorkflow, typed: Args, out: Run)
  {
    && out.Workflow?
    && out.queue == Upper(Strip(if "queue_name" in typed then typed["queue_name"] else ""))
    && out.search == Call(server, "search_qmgr_dump", map["search_string" := out.queue])
    && NoDups(out.qmgrs)
    && (forall q :: q in out.qmgrs <==> q in Found(Split(out.search.text, "\n")))
    && |out.runs| == |out.qmgrs|
    && (forall k | 0 <= k < |out.qmgrs| ::
          out.runs[k] == RunOn(server, Format(WorkflowTemplate(w, out.queue), out.queue), out.qmgrs[k]))
  }

  /**
   * The check-depth and check-status workflows: normalise the queue name,
   * search for it, then run the command on every queue manager the search
   * output names, and on none when it names none.
   */
  method RunWorkflow(server: Server, w: SmartWorkflow, typed: Args) returns (out: Run)
    ensures WorkflowRun(server, w, typed, out)
  {
    var queue := Upper(Strip(if "queue_name" in typed then typed["queue_name"] else ""));
    var template := WorkflowTemplate(w, queue);
    var searchArgs := map["search_string" := queue];
    var searchRes := CallText(server("search_qmgr_dump", searchArgs));
    var qmgrs := ExtractQmgrsFromSearch(searchRes);
    var runs := [];
    if qmgrs != [] {
      runs := FanOut(server, Format(template, queue), qmgrs);
    }
    return Workflow(queue, Rendered("search_qmgr_dump", searchArgs, searchRes), qmgrs, runs);
  }

  /**
   * Pressing Execute for an operation with what was typed into its fields:
   * refuse with the list of empty fields, or assemble the final arguments
   * and run the workflow or the one tool call.
   */
  method Execute(server: Server, op: OpConfig, input: string -> string) returns (out: Run)
    requires op.Operation?
    ensures var missing := Missing(op.args, input);
      && (out.MissingParams? <==> missing != [])
      && (out.MissingParams? ==> out.message == MissingPrefix + Join(missing, ", "))
    ensures var typed := ToolArgs(op.args, input);
      && (out.TemplateError? <==> Missing(op.args, input) == [] && FinalArgs(op, typed).Err?)
      && (out.TemplateError? ==> out.message == "Template error: Missing '" + FinalArgs(op, typed).error + "'")
      && (out.Workflow? <==> Missing(op.args, input) == [] && FinalArgs(op, typed).Ok? && op.workflow.Some?)
      && (out.Workflow? ==> WorkflowRun(server, op.workflow.value, typed, out))
      && (out.Executed? ==> out.block == Call(server, op.tool, FinalArgs(op, typed).value))
  {
    var typed := ToolArgs(op.args, input);
    var missing := Missing(op.args, input);
    if missing != [] {
      return MissingParams(MissingPrefix + Join(missing, ", "));
    }
    var finalArgs := FinalArgs(op, typed);
    if finalArgs.Err? {
      return TemplateError("Template error: Missing '" + finalArgs.error + "'");
    }
    if op.workflow.Some? {
      out := RunWorkflow(server, op.workflow.value, typed);
      return;
    }
    var res := CallText(server(op.tool, finalArgs.value));
    return Executed(Rendered(op.tool, finalArgs.value, res));
  }

  /**
   * A workflow makes exactly one search and then one `runmqsc` per queue
   * manager found, each with the same command and without a hostname; a
   * search naming no queue manager is followed by no call.
   */
  lemma FanOutShape(server: Server, w: SmartWorkflow, typed: Args, out: Run)
    requires WorkflowRun(server, w, typed, out)
    ensures out.qmgrs == [] ==> out.runs == []
    ensures forall k | 0 <= k < |out.runs| ::
      && out.runs[k].tool == "runmqsc"
      && "hostname" !in out.runs[k].args
      && "mqsc_command" in out.runs[k].args && "mqsc_command" in out.runs[0].args
      && out.runs[k].args["mqsc_command"] == out.runs[0].args["mqsc_command"]
  {
  }
}
