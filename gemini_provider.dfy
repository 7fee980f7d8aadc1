/**
 * `GeminiProvider.chat`: the bounded function-calling loop over a Gemini
 * chat session. The model sees a history rebuilt from the string-content
 * entries of the shared history plus every message sent in this chat; only
 * the first part of each reply is looked at, so an iteration makes at most
 * one tool call, and tool rounds never touch the shared history.
 */
module GeminiProvider {
  import opened Wrappers
  import opened Seqs
  import opened McpTypes
  import opened Conversation
  import opened ToolLoop

  const LibraryMissing: string := "❌ Google Generative AI library not installed. Run: pip install google-generativeai"
  const KeyNotSet: string := "❌ GEMINI_API_KEY environment variable not set"
  const MaxIterationsReached: string := "❌ Maximum tool call iterations reached."

  /** How many entries of the shared history are kept after the user message is appended. */
  const HistoryLimit: nat := 10

  /** One `{"role": ..., "parts": [text]}` item of the model-side history. */
  datatype ModelTurn = ModelTurn(role: string, text: string)

  /** What `chat.send_message` is given: the user's text, or a function response carrying a tool's result. */
  datatype Sent = UserText(text: string) | FunctionResponse(name: string, result: string)

  /** The model: its reply, given the history it was started with and every message sent to it so far. */
  type Model = (seq<ModelTurn>, seq<Sent>) -> GeminiReply

  /** The string `chat` returns first. */
  function Text(r: Reply): string
  {
    match r
    case Answer(text) => text
    case NoLibrary => LibraryMissing
    case NoKey => KeyNotSet
    case Capped => MaxIterationsReached
  }

  // ---------------------------------------------------------------------
  // The model-side history
  // ---------------------------------------------------------------------

  /**
   * The model-side form of one shared-history entry: kept when its content
   * is a string, as a `user` turn when its role is `user` and a `model` turn
   * otherwise.
   */
  function ToModelTurn(e: Entry): Option<ModelTurn>
  {
    match e
    case Msg(role, content) =>
      if content.Some? then Some(ModelTurn(if role == "user" then "user" else "model", content.value)) else None
    case ToolReply(_, _, output) => Some(ModelTurn("model", output))
    case _ => None
  }

  /** The history the chat session is started with. */
  function ModelHistory(es: seq<Entry>): (ts: seq<ModelTurn>)
    ensures |ts| <= |es|
    ensures forall t | t in ts :: t.role == "user" || t.role == "model"
  {
    if es == [] then []
    else
      var init := ModelHistory(es[..|es| - 1]);
      match ToModelTurn(es[|es| - 1])
      case None => init
      case Some(t) => init + [t]
  }

  /** Rebuilding is entry by entry: the history of two parts is the two histories in order. */
  lemma {:induction false} ModelHistoryAppend(a: seq<Entry>, b: seq<Entry>)
    decreases |b|
    ensures ModelHistory(a + b) == ModelHistory(a) + ModelHistory(b)
  {
    if b == [] {
      assert a + b == a;
    } else {
      var b' := b[..|b| - 1];
      assert (a + b)[..|a + b| - 1] == a + b';
      assert (a + b)[|a + b| - 1] == b[|b| - 1];
      ModelHistoryAppend(a, b');
    }
  }

  /**
   * The model sees a `user` turn exactly for each plain user message with a
   * string content; every other kept entry becomes a `model` turn.
   */
  lemma {:induction false} UserTurnsAreUserMessages(es: seq<Entry>, c: string)
    ensures ModelTurn("user", c) in ModelHistory(es) <==> Msg("user", Some(c)) in es
  {
    if es != [] {
      var init := es[..|es| - 1];
      UserTurnsAreUserMessages(init, c);
      assert es == init + [es[|es| - 1]];
    }
  }

  /** `for msg in conversation_history`: the model-side history, built by appending. */
  method BuildModelHistory(es: seq<Entry>) returns (geminiHistory: seq<ModelTurn>)
    ensures geminiHistory == ModelHistory(es)
  {
    geminiHistory := [];
    var j := 0;
    while j < |es|
      invariant j <= |es|
      invariant geminiHistory == ModelHistory(es[..j])
    {
      assert es[..j + 1][..j] == es[..j];
      var msg := es[j];
      var turn := ToModelTurn(msg);
      if turn.Some? {
        geminiHistory := geminiHistory + [turn.value];
      }
      j := j + 1;
    }
    assert es[..j] == es;
  }

  // ---------------------------------------------------------------------
  // Usage
  // ---------------------------------------------------------------------

  const NoTokens: Usage := Usage(0, 0, 0)

  /** Counter-wise sum. */
  function Plus(a: Usage, b: Usage): Usage
  {
    Usage(a.promptTokens + b.promptTokens, a.completionTokens + b.completionTokens, a.totalTokens + b.totalTokens)
  }

  /** The counts of one reply: zero when it carries no usage metadata. */
  function Counts(u: Option<Usage>): Usage
  {
    match u
    case None => NoTokens
    case Some(x) => x
  }

  /** The token counts of a sequence of replies, summed. */
  function Tokens(rs: seq<GeminiReply>): Usage
  {
    if rs == [] then NoTokens else Plus(Counts(rs[0].usage), Tokens(rs[1..]))
  }

  /** No counter of `b` is below the same counter of `a`. */
  predicate NoLess(b: Usage, a: Usage)
  {
    b.promptTokens >= a.promptTokens && b.completionTokens >= a.completionTokens && b.totalTokens >= a.totalTokens
  }

  // ---------------------------------------------------------------------
  // The loop
  // ---------------------------------------------------------------------

  /**
   * What the loop does from one iteration on: how it ends, the usage it
   * returns, the `tools_used` records it appends and the replies it gets.
   */
  datatype Run = Run(reply: Reply, usage: Usage, used: seq<ToolUse>, replies: seq<GeminiReply>)

  /**
   * The loop from its `iteration`-th model call on (counted from 0), when
   * `sent` are the messages sent so far, the last of them not yet
   * answered, and `total` the usage so far.
   */
  function Rest(model: Model, callTool: ToolFn, past: seq<ModelTurn>, iteration: nat, sent: seq<Sent>, total: Usage): Run
    requires iteration <= MaxIterations
    // `sent` in the measure keeps the verifier from unrolling every iteration at a literal `iteration`
    decreases MaxIterations - iteration, sent
  {
    if iteration == MaxIterations then Run(Capped, total, [], [])
    else
      var r := model(past, sent);
      var total' := Plus(total, Counts(r.usage));
      if r.functionName == "" then Run(Answer(r.text), total', [], [r])
      else
        var result := callTool(r.functionName, r.functionArgs);
        var next := Rest(model, callTool, past, iteration + 1, sent + [FunctionResponse(r.functionName, result)], total');
        Run(next.reply, next.usage, [ToolUse(r.functionName, r.functionArgs)] + next.used, [r] + next.replies)
  }

  /** One model call of the loop, as `Rest` unfolds it. */
  lemma RestStep(model: Model, callTool: ToolFn, past: seq<ModelTurn>, iteration: nat, sent: seq<Sent>, total: Usage)
    requires iteration < MaxIterations
    ensures var r := model(past, sent);
      var t := Rest(model, callTool, past, iteration, sent, total);
      var total' := Plus(total, Counts(r.usage));
      && (r.functionName == "" ==> t.reply == Answer(r.text) && t.usage == total' && t.used == [])
      && (r.functionName != "" ==>
            var next := Rest(model, callTool, past, iteration + 1,
                             sent + [FunctionResponse(r.functionName, callTool(r.functionName, r.functionArgs))], total');
            t.reply == next.reply && t.usage == next.usage && t.used == [ToolUse(r.functionName, r.functionArgs)] + next.used)
  {
  }

  /** What one `chat` does: its reply, its usage (`{}` on a setup error), the new shared history, the tools used. */
  datatype ChatRun = ChatRun(reply: Reply, usage: Option<Usage>, history: seq<Entry>, used: seq<ToolUse>, replies: seq<GeminiReply>)

  /** The whole of `chat`, from the provider's setup and the shared history it is handed. */
  function ChatSpec(setup: Setup, userInput: string, model: Model, callTool: ToolFn, history: seq<Entry>): ChatRun
  {
    if !setup.hasLibrary then ChatRun(NoLibrary, None, history, [], [])
    else if KeyMissing(setup.apiKey) then ChatRun(NoKey, None, history, [], [])
    else
      var kept := LastN(history + [UserMsg(userInput)], HistoryLimit);
      var run := Rest(model, callTool, ModelHistory(history), 0, [UserText(userInput)], NoTokens);
      var answer := if run.reply.Answer? then [AssistantMsg(run.reply.text)] else [];
      ChatRun(run.reply, Some(run.usage), kept + answer, run.used, run.replies)
  }

  /**
   * `GeminiProvider.chat`: returns the text and the usage (`None` standing
   * for the empty dictionary of a setup error).
   */
  method Chat(setup: Setup, userInput: string, model: Model, callTool: ToolFn, history: History, toolsUsed: ToolLog)
    returns (out: string, usage: Option<Usage>)
    modifies history, toolsUsed
    ensures var c := ChatSpec(setup, userInput, model, callTool, old(history.entries));
      && out == Text(c.reply) && usage == c.usage
      && history.entries == c.history
      && toolsUsed.uses == old(toolsUsed.uses) + c.used
  {
    if !setup.hasLibrary {
      AppendNothing(history.entries, toolsUsed.uses);
      return Text(NoLibrary), None;
    }
    if setup.apiKey.None? || setup.apiKey.value == "" {
      AppendNothing(history.entries, toolsUsed.uses);
      return Text(NoKey), None;
    }
    var geminiHistory := BuildModelHistory(history.entries);
    history.Append(UserMsg(userInput));
    if |history.entries| > HistoryLimit {
      history.SetAll(history.entries[|history.entries| - HistoryLimit..]);
    }
    var reply, total := Loop(model, callTool, geminiHistory, userInput, history, toolsUsed);
    return Text(reply), Some(total);
  }

  /**
   * The loop's accounting: the rest of the loop, from this iteration with
   * `pending` sent so far, ends as the whole loop does, and the records
   * made so far followed by its own make up the whole loop's.
   */
  ghost predicate Tracks(t: Run, uses: seq<ToolUse>, whole: Run, uses0: seq<ToolUse>)
  {
    && t.reply == whole.reply && t.usage == whole.usage
    && uses + t.used == uses0 + whole.used
  }

  /**
   * How the loop ends, given the whole run it follows: its reply and usage,
   * the tool uses it recorded, and the answer (if any) appended to history.
   */
  ghost predicate Outcome(whole: Run, out: Reply, usage: Usage, uses: seq<ToolUse>, uses0: seq<ToolUse>,
                          entries: seq<Entry>, entries0: seq<Entry>)
  {
    && out == whole.reply && usage == whole.usage && uses == uses0 + whole.used
    && entries == entries0 + (if out.Answer? then [AssistantMsg(out.text)] else [])
  }

  /** Once every iteration is spent, the whole loop was capped and recorded no more. */
  lemma TracksDone(model: Model, callTool: ToolFn, past: seq<ModelTurn>, pending: seq<Sent>,
                   total: Usage, uses: seq<ToolUse>, whole: Run, uses0: seq<ToolUse>, entries: seq<Entry>)
    requires Tracks(Rest(model, callTool, past, MaxIterations, pending, total), uses, whole, uses0)
    ensures Outcome(whole, Capped, total, uses, uses0, entries, entries)
  {
    assert uses + [] == uses;
    assert entries + [] == entries;
  }

  /**
   * One iteration of the loop: send the pending message, then either append
   * the text answer and stop, or record and make the function call and send
   * its response next.
   */
  method Step(model: Model, callTool: ToolFn, past: seq<ModelTurn>, iteration: nat, pending: seq<Sent>, total: Usage,
              history: History, toolsUsed: ToolLog, ghost whole: Run, ghost uses0: seq<ToolUse>)
    returns (finished: bool, text: string, sent: seq<Sent>, total': Usage)
    requires iteration < MaxIterations
    requires Tracks(Rest(model, callTool, past, iteration, pending, total), toolsUsed.uses, whole, uses0)
    modifies history, toolsUsed
    ensures finished ==>
      Outcome(whole, Answer(text), total', toolsUsed.uses, uses0, history.entries, old(history.entries))
    ensures !finished ==>
      && Tracks(Rest(model, callTool, past, iteration + 1, sent, total'), toolsUsed.uses, whole, uses0)
      && history.entries == old(history.entries)
  {
    RestStep(model, callTool, past, iteration, pending, total);
    var response := model(past, pending);
    total' := Plus(total, Counts(response.usage));
    if response.functionName == "" {
      history.Append(AssistantMsg(response.text));
      AppendNothing(history.entries, toolsUsed.uses);
      return true, response.text, pending, total';
    }
    var toolName := response.functionName;
    var toolArgs := response.functionArgs;
    ghost var before := toolsUsed.uses;
    toolsUsed.Append(ToolUse(toolName, toolArgs));
    var toolResult := callTool(toolName, toolArgs);
    sent := pending + [FunctionResponse(toolName, toolResult)];
    AppendAssoc(before, [ToolUse(toolName, toolArgs)], Rest(model, callTool, past, iteration + 1, sent, total').used);
    return false, "", sent, total';
  }

  /** The `for iteration` loop of `chat`, entered after the shared history is pruned. */
  method Loop(model: Model, callTool: ToolFn, past: seq<ModelTurn>, userInput: string, history: History, toolsUsed: ToolLog)
    returns (out: Reply, totalUsage: Usage)
    modifies history, toolsUsed
    ensures Outcome(Rest(model, callTool, past, 0, [UserText(userInput)], NoTokens), out, totalUsage,
                    toolsUsed.uses, old(toolsUsed.uses), history.entries, old(history.entries))
  {
    ghost var whole := Rest(model, callTool, past, 0, [UserText(userInput)], NoTokens);
    ghost var uses0 := toolsUsed.uses;
    // The messages the chat session is sent, the last one being `current_message`.
    var sent: seq<Sent> := [UserText(userInput)];
    totalUsage := NoTokens;
    var iteration := 0;
    while iteration < MaxIterations
      invariant iteration <= MaxIterations
      invariant history.entries == old(history.entries)
      invariant Tracks(Rest(model, callTool, past, iteration, sent, totalUsage), toolsUsed.uses, whole, uses0)
    {
      var finished, text;
      finished, text, sent, totalUsage :=
        Step(model, callTool, past, iteration, sent, totalUsage, history, toolsUsed, whole, uses0);
      if finished {
        return Answer(text), totalUsage;
      }
      iteration := iteration + 1;
    }
    TracksDone(model, callTool, past, sent, totalUsage, toolsUsed.uses, whole, uses0, history.entries);
    return Capped, totalUsage;
  }

  // ---------------------------------------------------------------------
  // What the loop promises
  // ---------------------------------------------------------------------

  /** The model is asked at most once per remaining iteration, and at least once when one remains. */
  lemma {:induction false} RestBounded(model: Model, callTool: ToolFn, past: seq<ModelTurn>, iteration: nat, sent: seq<Sent>, total: Usage)
    requires iteration <= MaxIterations
    decreases MaxIterations - iteration
    ensures var t := Rest(model, callTool, past, iteration, sent, total);
      && |t.replies| <= MaxIterations - iteration
      && (iteration < MaxIterations ==> |t.replies| >= 1)
  {
    if iteration < MaxIterations {
      var r := model(past, sent);
      if r.functionName != "" {
        RestBounded(model, callTool, past, iteration + 1,
                    sent + [FunctionResponse(r.functionName, callTool(r.functionName, r.functionArgs))],
                    Plus(total, Counts(r.usage)));
      }
    }
  }

  /**
   * The returned usage is the usage so far plus every reply's counts, so no
   * counter ever decreases.
   */
  lemma {:induction false} RestUsage(model: Model, callTool: ToolFn, past: seq<ModelTurn>, iteration: nat, sent: seq<Sent>, total: Usage)
    requires iteration <= MaxIterations
    decreases MaxIterations - iteration
    ensures var t := Rest(model, callTool, past, iteration, sent, total);
      t.usage == Plus(total, Tokens(t.replies)) && NoLess(t.usage, total)
  {
    if iteration < MaxIterations {
      var r := model(past, sent);
      if r.functionName != "" {
        RestUsage(model, callTool, past, iteration + 1,
                  sent + [FunctionResponse(r.functionName, callTool(r.functionName, r.functionArgs))],
                  Plus(total, Counts(r.usage)));
      }
    }
  }

  /**
   * One tool call per iteration: the k-th `tools_used` record is the
   * function call of the k-th reply; the loop ends with the text of the
   * first reply without a function call, or at the cap after a function
   * call in every remaining iteration.
   */
  lemma {:induction false} RestCalls(model: Model, callTool: ToolFn, past: seq<ModelTurn>, iteration: nat, sent: seq<Sent>, total: Usage)
    requires iteration <= MaxIterations
    decreases MaxIterations - iteration
    ensures var t := Rest(model, callTool, past, iteration, sent, total);
      && |t.used| == |t.replies| - (if t.reply.Answer? then 1 else 0)
      && (forall k | 0 <= k < |t.used| ::
            t.replies[k].functionName != "" && t.used[k] == ToolUse(t.replies[k].functionName, t.replies[k].functionArgs))
      && (t.reply.Answer? ==> t.replies[|t.replies| - 1].functionName == "" && t.reply.text == t.replies[|t.replies| - 1].text)
      && (t.reply.Capped? ==> |t.replies| == MaxIterations - iteration)
      && (t.reply.Answer? || t.reply.Capped?)
  {
    if iteration < MaxIterations {
      var r := model(past, sent);
      if r.functionName != "" {
        var sent' := sent + [FunctionResponse(r.functionName, callTool(r.functionName, r.functionArgs))];
        var total' := Plus(total, Counts(r.usage));
        RestCalls(model, callTool, past, iteration + 1, sent', total');
        var next := Rest(model, callTool, past, iteration + 1, sent', total');
        var t := Rest(model, callTool, past, iteration, sent, total);
        assert t.used == [ToolUse(r.functionName, r.functionArgs)] + next.used;
        assert t.replies == [r] + next.replies;
        forall k | 0 <= k < |t.used|
          ensures t.replies[k].functionName != "" && t.used[k] == ToolUse(t.replies[k].functionName, t.replies[k].functionArgs)
        {
          if k > 0 {
            assert t.used[k] == next.used[k - 1] && t.replies[k] == next.replies[k - 1];
          }
        }
      }
    }
  }

  /** A model that always calls a function makes the loop ask it ten times and give up. */
  lemma {:induction false} ToolHungryModelHitsCap(model: Model, callTool: ToolFn, past: seq<ModelTurn>, iteration: nat,
                                                  sent: seq<Sent>, total: Usage)
    requires iteration <= MaxIterations
    requires forall p, s :: model(p, s).functionName != ""
    decreases MaxIterations - iteration
    ensures var t := Rest(model, callTool, past, iteration, sent, total);
      t.reply == Capped && |t.replies| == |t.used| == MaxIterations - iteration
  {
    if iteration < MaxIterations {
      var r := model(past, sent);
      ToolHungryModelHitsCap(model, callTool, past, iteration + 1,
                             sent + [FunctionResponse(r.functionName, callTool(r.functionName, r.functionArgs))],
                             Plus(total, Counts(r.usage)));
    }
  }

  /**
   * The callers' view of one `chat`: a setup error returns `{}` as usage and
   * changes nothing; otherwise the shared history is the last ten entries
   * up to the user message, plus the answer when there is one, so it can
   * end with eleven entries; tool rounds never reach it.
   */
  lemma ChatShape(setup: Setup, userInput: string, model: Model, callTool: ToolFn, history: seq<Entry>)
    ensures var c := ChatSpec(setup, userInput, model, callTool, history);
      && (!setup.hasLibrary || KeyMissing(setup.apiKey) ==>
            c.usage == None && c.history == history && c.used == [] && c.replies == [])
      && (setup.hasLibrary && !KeyMissing(setup.apiKey) ==>
            var kept := LastN(history + [UserMsg(userInput)], HistoryLimit);
            && c.usage.Some?
            && 1 <= |c.replies| <= MaxIterations
            && c.history[..|kept|] == kept
            && c.history[|kept| - 1] == UserMsg(userInput)
            && |c.history| <= HistoryLimit + 1
            && (c.reply.Answer? <==> |c.history| == |kept| + 1)
            && (c.reply.Answer? ==> c.history[|kept|] == AssistantMsg(c.reply.text))
            && (c.reply.Answer? && |history| >= HistoryLimit ==> |c.history| == HistoryLimit + 1))
  {
    if setup.hasLibrary && !KeyMissing(setup.apiKey) {
      RestBounded(model, callTool, ModelHistory(history), 0, [UserText(userInput)], NoTokens);
    }
  }
}
