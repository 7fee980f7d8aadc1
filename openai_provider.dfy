/**
 * `OpenAIProvider.chat`: the bounded tool-calling loop over OpenAI chat
 * completions. The model is an oracle from the conversation it is sent
 * (after the system prompt) to the message it answers with; the tools are
 * reached through the `call_tool` callback. The loop appends to the
 * caller's `conversation_history` and `tools_used` in place.
 */
module OpenAiProvider {
  import opened Wrappers
  import opened McpTypes
  import opened Seqs
  import opened Conversation
  import opened ToolLoop

  const LibraryMissing: string := "❌ OpenAI library not installed. Run: pip install openai"
  const KeyNotSet: string := "❌ OPENAI_API_KEY environment variable not set"
  const MaxIterationsReached: string := "❌ Maximum tool call iterations reached."

  /** The model: the message it answers to a conversation. */
  type Model = seq<Entry> -> OpenAiMessage

  /** The string `chat` returns. */
  function Text(r: Reply): string
  {
    match r
    case Answer(text) => text
    case NoLibrary => LibraryMissing
    case NoKey => KeyNotSet
    case Capped => MaxIterationsReached
  }

  /** The `tool` entries of one round: for each call, its id, its name and the callback's answer. */
  function ToolEntries(calls: seq<ToolCall>, callTool: ToolFn): (es: seq<Entry>)
    ensures |es| == |calls|
  {
    seq(|calls|, j requires 0 <= j < |calls| =>
      ToolReply(calls[j].id, Some(calls[j].name), callTool(calls[j].name, calls[j].args)))
  }

  /** The j-th `tool` entry carries the j-th call's id and name and the callback's answer to it. */
  lemma ToolEntriesAt(calls: seq<ToolCall>, callTool: ToolFn, j: nat)
    requires j < |calls|
    ensures ToolEntries(calls, callTool)[j]
      == ToolReply(calls[j].id, Some(calls[j].name), callTool(calls[j].name, calls[j].args))
  {
  }

  /** Handling one more call appends its `tool` entry. */
  lemma ToolEntriesSnoc(calls: seq<ToolCall>, callTool: ToolFn, j: nat)
    requires j < |calls|
    ensures ToolEntries(calls[..j + 1], callTool)
      == ToolEntries(calls[..j], callTool)
         + [ToolReply(calls[j].id, Some(calls[j].name), callTool(calls[j].name, calls[j].args))]
  {
  }

  /** The entries of a tool round: the assistant message itself, then one `tool` entry per call. */
  function Round(m: OpenAiMessage, callTool: ToolFn): seq<Entry>
  {
    [AssistantCalls(m)] + ToolEntries(m.toolCalls, callTool)
  }

  /** The loop from its `iteration`-th model call on (counted from 0), when the history is `sent`. */
  function Rest(model: Model, callTool: ToolFn, iteration: nat, sent: seq<Entry>): Turn
    requires iteration <= MaxIterations
    // `sent` in the measure keeps the verifier from unrolling every iteration at a literal `iteration`
    decreases MaxIterations - iteration, sent
  {
    if iteration == MaxIterations then Turn(Capped, [], [], 0)
    else
      var m := model(sent);
      if m.toolCalls == [] then
        var text := m.content.GetOr("");
        Turn(Answer(text), [AssistantMsg(text)], [], 1)
      else
        var round := Round(m, callTool);
        Then(round, UsesOfCalls(m.toolCalls), Rest(model, callTool, iteration + 1, sent + round))
  }

  /** A tool round followed by the rest of the loop, at the history `after` the round. */
  lemma RestStep(model: Model, callTool: ToolFn, iteration: nat, sent: seq<Entry>, after: seq<Entry>)
    requires iteration < MaxIterations && model(sent).toolCalls != []
    requires after == sent + Round(model(sent), callTool)
    ensures Rest(model, callTool, iteration, sent)
      == Then(Round(model(sent), callTool), UsesOfCalls(model(sent).toolCalls), Rest(model, callTool, iteration + 1, after))
  {
  }

  /** The whole of `chat`, from the provider's setup and the history it is handed. */
  function ChatSpec(setup: Setup, userInput: string, model: Model, callTool: ToolFn, history: seq<Entry>): Turn
  {
    if !setup.hasLibrary then Refused(NoLibrary)
    else if KeyMissing(setup.apiKey) then Refused(NoKey)
    else AfterUser(userInput, Rest(model, callTool, 0, history + [UserMsg(userInput)]))
  }

  /**
   * One tool round: the assistant message is appended, then for each call in
   * request order its `tools_used` record and its `tool` entry.
   */
  method ToolRound(message: OpenAiMessage, callTool: ToolFn, history: History, toolsUsed: ToolLog)
    modifies history, toolsUsed
    ensures history.entries == old(history.entries) + Round(message, callTool)
    ensures toolsUsed.uses == old(toolsUsed.uses) + UsesOfCalls(message.toolCalls)
  {
    history.Append(AssistantCalls(message));
    var calls := message.toolCalls;
    var j := 0;
    while j < |calls|
      invariant j <= |calls|
      invariant history.entries == old(history.entries) + [AssistantCalls(message)] + ToolEntries(calls[..j], callTool)
      invariant toolsUsed.uses == old(toolsUsed.uses) + UsesOfCalls(calls[..j])
    {
      var call := calls[j];
      toolsUsed.Append(ToolUse(call.name, call.args));
      var toolResult := callTool(call.name, call.args);
      history.Append(ToolReply(call.id, Some(call.name), toolResult));
      UsesOfCallsSnoc(calls, j);
      ToolEntriesSnoc(calls, callTool, j);
      j := j + 1;
    }
    assert calls[..j] == calls;
  }

  /**
   * `OpenAIProvider.chat`. Returns a bare string; the history and the
   * `tools_used` list grow exactly as `ChatSpec` says.
   */
  method Chat(setup: Setup, userInput: string, model: Model, callTool: ToolFn, history: History, toolsUsed: ToolLog)
    returns (out: string)
    modifies history, toolsUsed
    ensures var t := ChatSpec(setup, userInput, model, callTool, old(history.entries));
      && out == Text(t.reply)
      && history.entries == old(history.entries) + t.added
      && toolsUsed.uses == old(toolsUsed.uses) + t.used
  {
    ghost var spec := ChatSpec(setup, userInput, model, callTool, history.entries);
    if !setup.hasLibrary {
      assert spec == Refused(NoLibrary);
      AppendNothing(history.entries, toolsUsed.uses);
      return Text(NoLibrary);
    }
    if setup.apiKey.None? || setup.apiKey.value == "" {
      assert spec == Refused(NoKey);
      AppendNothing(history.entries, toolsUsed.uses);
      return Text(NoKey);
    }
    ghost var t := Rest(model, callTool, 0, history.entries + [UserMsg(userInput)]);
    assert spec == AfterUser(userInput, t);
    history.Append(UserMsg(userInput));
    var reply := Loop(model, callTool, history, toolsUsed);
    out := Text(reply);
    AppendAssoc(old(history.entries), [UserMsg(userInput)], t.added);
  }

  /**
   * One iteration of the loop: ask the model; on a text answer append it and
   * finish, otherwise run the tool round and go on. `round` and `uses` are
   * what the round appended.
   */
  method Iterate(iteration: nat, model: Model, callTool: ToolFn, history: History, toolsUsed: ToolLog)
    returns (finished: bool, out: Reply, ghost round: seq<Entry>, ghost uses: seq<ToolUse>)
    requires iteration < MaxIterations
    modifies history, toolsUsed
    ensures var t := Rest(model, callTool, iteration, old(history.entries));
      finished ==> && out == t.reply
                   && history.entries == old(history.entries) + t.added
                   && toolsUsed.uses == old(toolsUsed.uses) + t.used
    ensures var t := Rest(model, callTool, iteration, old(history.entries));
      var next := Rest(model, callTool, iteration + 1, history.entries);
      !finished ==> && history.entries == old(history.entries) + round
                    && toolsUsed.uses == old(toolsUsed.uses) + uses
                    && t == Then(round, uses, next)
  {
    var message := model(history.entries);
    if message.toolCalls == [] {
      var finalText := message.content.GetOr("");
      history.Append(AssistantMsg(finalText));
      return true, Answer(finalText), [], [];
    }
    ghost var here := history.entries;
    ToolRound(message, callTool, history, toolsUsed);
    round := Round(message, callTool);
    uses := UsesOfCalls(message.toolCalls);
    RestStep(model, callTool, iteration, here, history.entries);
    return false, Capped, round, uses;
  }

  /** One iteration of the loop, seen through the loop's accounting. */
  method Advance(iteration: nat, model: Model, callTool: ToolFn, history: History, toolsUsed: ToolLog,
                 ghost whole: Turn, ghost start: seq<Entry>, ghost uses0: seq<ToolUse>)
    returns (finished: bool, out: Reply)
    requires iteration < MaxIterations
    requires Accounts(Rest(model, callTool, iteration, history.entries), history.entries, toolsUsed.uses, whole, start, uses0)
    modifies history, toolsUsed
    ensures finished ==> out == whole.reply && history.entries == start + whole.added && toolsUsed.uses == uses0 + whole.used
    ensures !finished ==>
      Accounts(Rest(model, callTool, iteration + 1, history.entries), history.entries, toolsUsed.uses, whole, start, uses0)
  {
    ghost var entries := history.entries;
    ghost var uses1 := toolsUsed.uses;
    ghost var round, uses;
    finished, out, round, uses := Iterate(iteration, model, callTool, history, toolsUsed);
    if !finished {
      AccountsStep(round, uses, Rest(model, callTool, iteration + 1, history.entries), entries, uses1, whole, start, uses0);
    }
  }

  /** The `for iteration` loop of `chat`, entered after the user message is appended. */
  method Loop(model: Model, callTool: ToolFn, history: History, toolsUsed: ToolLog) returns (out: Reply)
    modifies history, toolsUsed
    ensures var t := Rest(model, callTool, 0, old(history.entries));
      && out == t.reply
      && history.entries == old(history.entries) + t.added
      && toolsUsed.uses == old(toolsUsed.uses) + t.used
  {
    ghost var start := history.entries;
    ghost var uses0 := toolsUsed.uses;
    ghost var whole := Rest(model, callTool, 0, start);
    var iteration := 0;
    while iteration < MaxIterations
      invariant iteration <= MaxIterations
      invariant Accounts(Rest(model, callTool, iteration, history.entries), history.entries, toolsUsed.uses,
                         whole, start, uses0)
    {
      var finished;
      finished, out := Advance(iteration, model, callTool, history, toolsUsed, whole, start, uses0);
      if finished {
        return;
      }
      iteration := iteration + 1;
    }
    AccountsDone(Rest(model, callTool, iteration, history.entries), history.entries, toolsUsed.uses, whole, start, uses0);
    return Capped;
  }

  // ---------------------------------------------------------------------
  // What the loop promises
  // ---------------------------------------------------------------------

  /** The model is asked at most once per remaining iteration. */
  lemma {:induction false} RestBounded(model: Model, callTool: ToolFn, iteration: nat, sent: seq<Entry>)
    requires iteration <= MaxIterations
    decreases MaxIterations - iteration
    ensures Rest(model, callTool, iteration, sent).modelCalls <= MaxIterations - iteration
  {
    if iteration < MaxIterations {
      var m := model(sent);
      if m.toolCalls != [] {
        RestBounded(model, callTool, iteration + 1, sent + Round(m, callTool));
      }
    }
  }

  /**
   * Every model call appends one entry (the assistant message) and every
   * tool call one more (its `tool` entry): nothing is removed.
   */
  lemma {:induction false} RestGrowth(model: Model, callTool: ToolFn, iteration: nat, sent: seq<Entry>)
    requires iteration <= MaxIterations
    decreases MaxIterations - iteration
    ensures var t := Rest(model, callTool, iteration, sent);
      |t.added| == t.modelCalls + |t.used|
  {
    if iteration < MaxIterations {
      var m := model(sent);
      if m.toolCalls != [] {
        RestGrowth(model, callTool, iteration + 1, sent + Round(m, callTool));
      }
    }
  }

  /** The loop never appends a user message. */
  lemma {:induction false} RestAddsNoUserMsg(model: Model, callTool: ToolFn, iteration: nat, sent: seq<Entry>)
    requires iteration <= MaxIterations
    decreases MaxIterations - iteration
    ensures forall e | e in Rest(model, callTool, iteration, sent).added :: !IsUserMsg(e)
  {
    if iteration < MaxIterations {
      var m := model(sent);
      if m.toolCalls != [] {
        RestAddsNoUserMsg(model, callTool, iteration + 1, sent + Round(m, callTool));
      }
    }
  }

  /**
   * The two ways out of the loop: a text answer, which is the last entry
   * appended and the only plain message the loop appends; or the cap, after
   * every remaining iteration asked for tools, with no plain message
   * appended at all.
   */
  lemma {:induction false} RestOutcome(model: Model, callTool: ToolFn, iteration: nat, sent: seq<Entry>)
    requires iteration <= MaxIterations
    decreases MaxIterations - iteration
    ensures Outcome(Rest(model, callTool, iteration, sent), iteration)
  {
    var w := Rest(model, callTool, iteration, sent);
    if iteration == MaxIterations {
      assert w.reply == Capped && w.modelCalls == 0 && w.added == [];
    } else {
      var m := model(sent);
      if m.toolCalls == [] {
        AnswerIsAnswered(m.content.GetOr(""));
      } else {
        var round := Round(m, callTool);
        RestOutcome(model, callTool, iteration + 1, sent + round);
        RestStep(model, callTool, iteration, sent, sent + round);
        assert NoPlainMsg(round);
        AfterToolRound(round, UsesOfCalls(m.toolCalls), Rest(model, callTool, iteration + 1, sent + round), iteration);
      }
    }
  }

  /** A model that asks for tools every time makes `chat` ask it ten times and give up. */
  lemma {:induction false} ToolHungryModelHitsCap(model: Model, callTool: ToolFn, iteration: nat, sent: seq<Entry>)
    requires iteration <= MaxIterations
    requires forall h :: model(h).toolCalls != []
    decreases MaxIterations - iteration
    ensures var t := Rest(model, callTool, iteration, sent);
      t.reply == Capped && t.modelCalls == MaxIterations - iteration
  {
    if iteration < MaxIterations {
      var m := model(sent);
      ToolHungryModelHitsCap(model, callTool, iteration + 1, sent + Round(m, callTool));
    }
  }

  /**
   * The callers' view of one `chat`: an error from the setup changes
   * nothing; otherwise the user message is appended first and only once,
   * there are at most ten model calls, every entry after it is an assistant
   * message or a tool reply, and the history grows by one entry per model
   * call and per tool call.
   */
  lemma ChatShape(setup: Setup, userInput: string, model: Model, callTool: ToolFn, history: seq<Entry>)
    ensures var t := ChatSpec(setup, userInput, model, callTool, history);
      && (!setup.hasLibrary ==> t == Refused(NoLibrary))
      && (setup.hasLibrary && KeyMissing(setup.apiKey) ==> t == Refused(NoKey))
      && (setup.hasLibrary && !KeyMissing(setup.apiKey) ==>
            && t.added[0] == UserMsg(userInput)
            && (forall k | 1 <= k < |t.added| :: !IsUserMsg(t.added[k]))
            && 1 <= t.modelCalls <= MaxIterations
            && |t.added| == 1 + t.modelCalls + |t.used|)
  {
    if setup.hasLibrary && !KeyMissing(setup.apiKey) {
      var sent := history + [UserMsg(userInput)];
      RestBounded(model, callTool, 0, sent);
      RestGrowth(model, callTool, 0, sent);
      RestAddsNoUserMsg(model, callTool, 0, sent);
      AfterUserShape(userInput, Rest(model, callTool, 0, sent));
    }
  }

  /** A tool round right after the user message, whatever follows it. */
  lemma RoundAtFront(userInput: string, m: OpenAiMessage, callTool: ToolFn, added: seq<Entry>, used: seq<ToolUse>)
    ensures var all := [UserMsg(userInput)] + (Round(m, callTool) + added);
      && |all| >= 2 + |m.toolCalls|
      && all[1] == AssistantCalls(m)
      && (forall j | 0 <= j < |m.toolCalls| ::
            all[2 + j] == ToolReply(m.toolCalls[j].id, Some(m.toolCalls[j].name),
                                    callTool(m.toolCalls[j].name, m.toolCalls[j].args)))
      && (UsesOfCalls(m.toolCalls) + used)[..|m.toolCalls|] == UsesOfCalls(m.toolCalls)
  {
    var round := Round(m, callTool);
    var all := [UserMsg(userInput)] + (round + added);
    forall j | 0 <= j < |m.toolCalls|
      ensures all[2 + j] == ToolReply(m.toolCalls[j].id, Some(m.toolCalls[j].name),
                                      callTool(m.toolCalls[j].name, m.toolCalls[j].args))
    {
      assert all[2 + j] == round[1 + j];
      ToolEntriesAt(m.toolCalls, callTool, j);
    }
  }

  /**
   * The first tool round, in request order: the assistant message, then for
   * each call its `tool` entry with that call's id and the callback's
   * answer; `tools_used` starts with the calls' records in the same order.
   */
  lemma FirstRoundInOrder(setup: Setup, userInput: string, model: Model, callTool: ToolFn, history: seq<Entry>)
    requires setup.hasLibrary && !KeyMissing(setup.apiKey)
    requires model(history + [UserMsg(userInput)]).toolCalls != []
    ensures var m := model(history + [UserMsg(userInput)]);
      var t := ChatSpec(setup, userInput, model, callTool, history);
      && |t.added| >= 2 + |m.toolCalls|
      && t.added[1] == AssistantCalls(m)
      && (forall j | 0 <= j < |m.toolCalls| ::
            t.added[2 + j] == ToolReply(m.toolCalls[j].id, Some(m.toolCalls[j].name),
                                        callTool(m.toolCalls[j].name, m.toolCalls[j].args)))
      && t.used[..|m.toolCalls|] == UsesOfCalls(m.toolCalls)
  {
    var sent := history + [UserMsg(userInput)];
    var m := model(sent);
    var round := Round(m, callTool);
    RestStep(model, callTool, 0, sent, sent + round);
    var t := Rest(model, callTool, 1, sent + round);
    var w := Rest(model, callTool, 0, sent);
    assert ChatSpec(setup, userInput, model, callTool, history) == AfterUser(userInput, w);
    assert w.added == round + t.added && w.used == UsesOfCalls(m.toolCalls) + t.used;
    RoundAtFront(userInput, m, callTool, t.added, t.used);
  }
}
