/**
 * `AnthropicProvider.chat`: the bounded tool-use loop over the Anthropic
 * Messages API. The model is an oracle from the conversation it is sent to
 * the content blocks of its reply; every tool round appends the whole reply
 * and then one user entry holding all the tool results.
 */
module AnthropicProvider {
  import opened Wrappers
  import opened McpTypes
  import opened Seqs
  import opened Conversation
  import opened ToolLoop

  const LibraryMissing: string := "❌ Anthropic library not installed. Run: pip install anthropic"
  const KeyNotSet: string := "❌ ANTHROPIC_API_KEY environment variable not set"
  const MaxIterationsReached: string := "❌ Maximum tool call iterations reached."

  /** The model: the content blocks it answers to a conversation. */
  type Model = seq<Entry> -> seq<Block>

  /** The string `chat` returns. */
  function Text(r: Reply): string
  {
    match r
    case Answer(text) => text
    case NoLibrary => LibraryMissing
    case NoKey => KeyNotSet
    case Capped => MaxIterationsReached
  }

  /** The `tool_result` items for some `tool_use` blocks: each block's id and the callback's answer to it. */
  function ResultsOf(ts: seq<Block>, callTool: ToolFn): (rs: seq<ToolResult>)
    requires forall b | b in ts :: b.ToolUseBlock?
    ensures |rs| == |ts|
  {
    seq(|ts|, k requires 0 <= k < |ts| => ToolResult(ts[k].id, callTool(ts[k].name, ts[k].input)))
  }

  /** The k-th result answers the k-th block. */
  lemma ResultsOfAt(ts: seq<Block>, callTool: ToolFn, k: nat)
    requires forall b | b in ts :: b.ToolUseBlock?
    requires k < |ts|
    ensures ResultsOf(ts, callTool)[k] == ToolResult(ts[k].id, callTool(ts[k].name, ts[k].input))
  {
  }

  /** Answering one more block appends its result. */
  lemma ResultsOfSnoc(ts: seq<Block>, callTool: ToolFn, b: Block)
    requires forall x | x in ts :: x.ToolUseBlock?
    requires b.ToolUseBlock?
    ensures ResultsOf(ts + [b], callTool) == ResultsOf(ts, callTool) + [ToolResult(b.id, callTool(b.name, b.input))]
  {
  }

  /** The entries of a tool round: the whole reply as an assistant entry, then one user entry of results. */
  function Round(content: seq<Block>, callTool: ToolFn): seq<Entry>
  {
    [AssistantBlocks(content), UserResults(ResultsOf(ToolUseBlocks(content), callTool))]
  }

  /** The `tools_used` records of a tool round: one per `tool_use` block, in order. */
  function RoundUses(content: seq<Block>): seq<ToolUse>
  {
    UsesOfBlocks(ToolUseBlocks(content))
  }

  /** The loop from its `iteration`-th model call on (counted from 0), when the history is `sent`. */
  function Rest(model: Model, callTool: ToolFn, iteration: nat, sent: seq<Entry>): Turn
    requires iteration <= MaxIterations
    // `sent` in the measure keeps the verifier from unrolling every iteration at a literal `iteration`
    decreases MaxIterations - iteration, sent
  {
    if iteration == MaxIterations then Turn(Capped, [], [], 0)
    else
      var content := model(sent);
      if !HasToolUse(content) then
        var text := FirstText(content);
        Turn(Answer(text), [AssistantMsg(text)], [], 1)
      else
        var round := Round(content, callTool);
        Then(round, RoundUses(content), Rest(model, callTool, iteration + 1, sent + round))
  }

  /** A tool round followed by the rest of the loop, at the history `after` the round. */
  lemma RestStep(model: Model, callTool: ToolFn, iteration: nat, sent: seq<Entry>, after: seq<Entry>)
    requires iteration < MaxIterations && HasToolUse(model(sent))
    requires after == sent + Round(model(sent), callTool)
    ensures Rest(model, callTool, iteration, sent)
      == Then(Round(model(sent), callTool), RoundUses(model(sent)), Rest(model, callTool, iteration + 1, after))
  {
  }

  /** The whole of `chat`, from the provider's setup and the history it is handed. */
  function ChatSpec(setup: Setup, userInput: string, model: Model, callTool: ToolFn, history: seq<Entry>): Turn
  {
    if !setup.hasLibrary then Refused(NoLibrary)
    else if KeyMissing(setup.apiKey) then Refused(NoKey)
    else AfterUser(userInput, Rest(model, callTool, 0, history + [UserMsg(userInput)]))
  }

  /**
   * One tool round: the whole reply is appended; each `tool_use` block in
   * order (other blocks skipped) gets its `tools_used` record and its call;
   * then the results, in the same order, are appended as one user entry.
   */
  method ToolRound(content: seq<Block>, callTool: ToolFn, history: History, toolsUsed: ToolLog)
    modifies history, toolsUsed
    ensures history.entries == old(history.entries) + Round(content, callTool)
    ensures toolsUsed.uses == old(toolsUsed.uses) + RoundUses(content)
  {
    history.Append(AssistantBlocks(content));
    var toolResults: seq<ToolResult> := [];
    var j := 0;
    while j < |content|
      invariant j <= |content|
      invariant history.entries == old(history.entries) + [AssistantBlocks(content)]
      invariant toolResults == ResultsOf(ToolUseBlocks(content[..j]), callTool)
      invariant toolsUsed.uses == old(toolsUsed.uses) + UsesOfBlocks(ToolUseBlocks(content[..j]))
    {
      var block := content[j];
      FilterSnoc(content, IsToolUse, j);
      if block.ToolUseBlock? {
        toolsUsed.Append(ToolUse(block.name, block.input));
        var toolResult := callTool(block.name, block.input);
        ResultsOfSnoc(ToolUseBlocks(content[..j]), callTool, block);
        UsesOfBlocksSnoc(ToolUseBlocks(content[..j]), block);
        toolResults := toolResults + [ToolResult(block.id, toolResult)];
      } else {
        assert ToolUseBlocks(content[..j + 1]) == ToolUseBlocks(content[..j]);
      }
      j := j + 1;
    }
    assert content[..j] == content;
    history.Append(UserResults(toolResults));
  }

  /**
   * `AnthropicProvider.chat`. Returns a bare string; the history and the
   * `tools_used` list grow exactly as `ChatSpec` says.
   */
  method Chat(setup: Setup, userInput: string, model: Model, callTool: ToolFn, history: History, toolsUsed: ToolLog)
    returns (out: string)
    modifies history, toolsUsed
    ensures var t := ChatSpec(setup, userInput, model, callTool, old(history.entries));
      && out == Text(t.reply)
      && history.entries == old(history.entries) + t.added
      && toolsUsed.uses == old(toolsUsed.uses) + t.used
  {
    ghost var spec := ChatSpec(setup, userInput, model, callTool, history.entries);
    if !setup.hasLibrary {
      assert spec == Refused(NoLibrary);
      AppendNothing(history.entries, toolsUsed.uses);
      return Text(NoLibrary);
    }
    if setup.apiKey.None? || setup.apiKey.value == "" {
      assert spec == Refused(NoKey);
      AppendNothing(history.entries, toolsUsed.uses);
      return Text(NoKey);
    }
    ghost var t := Rest(model, callTool, 0, history.entries + [UserMsg(userInput)]);
    assert spec == AfterUser(userInput, t);
    history.Append(UserMsg(userInput));
    var reply := Loop(model, callTool, history, toolsUsed);
    out := Text(reply);
    AppendAssoc(old(history.entries), [UserMsg(userInput)], t.added);
  }

  /**
   * One iteration of the loop: ask the model; without a `tool_use` block
   * append the first text and finish, otherwise run the tool round and go
   * on. `round` and `uses` are what the round appended.
   */
  method Iterate(iteration: nat, model: Model, callTool: ToolFn, history: History, toolsUsed: ToolLog)
    returns (finished: bool, out: Reply, ghost round: seq<Entry>, ghost uses: seq<ToolUse>)
    requires iteration < MaxIterations
    modifies history, toolsUsed
    ensures var t := Rest(model, callTool, iteration, old(history.entries));
      finished ==> && out == t.reply
                   && history.entries == old(history.entries) + t.added
                   && toolsUsed.uses == old(toolsUsed.uses) + t.used
    ensures var t := Rest(model, callTool, iteration, old(history.entries));
      var next := Rest(model, callTool, iteration + 1, history.entries);
      !finished ==> && history.entries == old(history.entries) + round
                    && toolsUsed.uses == old(toolsUsed.uses) + uses
                    && t == Then(round, uses, next)
  {
    var content := model(history.entries);
    var hasToolUse := exists k | 0 <= k < |content| :: content[k].ToolUseBlock?;
    if !hasToolUse {
      var finalText := FirstText(content);
      history.Append(AssistantMsg(finalText));
      return true, Answer(finalText), [], [];
    }
    ghost var here := history.entries;
    ToolRound(content, callTool, history, toolsUsed);
    round := Round(content, callTool);
    uses := RoundUses(content);
    RestStep(model, callTool, iteration, here, history.entries);
    return false, Capped, round, uses;
  }

  /** One iteration of the loop, seen through the loop's accounting. */
  method Advance(iteration: nat, model: Model, callTool: ToolFn, history: History, toolsUsed: ToolLog,
                 ghost whole: Turn, ghost start: seq<Entry>, ghost uses0: seq<ToolUse>)
    returns (finished: bool, out: Reply)
    requires iteration < MaxIterations
    requires Accounts(Rest(model, callTool, iteration, history.entries), history.entries, toolsUsed.uses, whole, start, uses0)
    modifies history, toolsUsed
    ensures finished ==> out == whole.reply && history.entries == start + whole.added && toolsUsed.uses == uses0 + whole.used
    ensures !finished ==>
      Accounts(Rest(model, callTool, iteration + 1, history.entries), history.entries, toolsUsed.uses, whole, start, uses0)
  {
    ghost var entries := history.entries;
    ghost var uses1 := toolsUsed.uses;
    ghost var round, uses;
    finished, out, round, uses := Iterate(iteration, model, callTool, history, toolsUsed);
    if !finished {
      AccountsStep(round, uses, Rest(model, callTool, iteration + 1, history.entries), entries, uses1, whole, start, uses0);
    }
  }

  /** The `for iteration` loop of `chat`, entered after the user message is appended. */
  method Loop(model: Model, callTool: ToolFn, history: History, toolsUsed: ToolLog) returns (out: Reply)
    modifies history, toolsUsed
    ensures var t := Rest(model, callTool, 0, old(history.entries));
      && out == t.reply
      && history.entries == old(history.entries) + t.added
      && toolsUsed.uses == old(toolsUsed.uses) + t.used
  {
    ghost var start := history.entries;
    ghost var uses0 := toolsUsed.uses;
    ghost var whole := Rest(model, callTool, 0, start);
    var iteration := 0;
    while iteration < MaxIterations
      invariant iteration <= MaxIterations
      invariant Accounts(Rest(model, callTool, iteration, history.entries), history.entries, toolsUsed.uses,
                         whole, start, uses0)
    {
      var finished;
      finished, out := Advance(iteration, model, callTool, history, toolsUsed, whole, start, uses0);
      if finished {
        return;
      }
      iteration := iteration + 1;
    }
    AccountsDone(Rest(model, callTool, iteration, history.entries), history.entries, toolsUsed.uses, whole, start, uses0);
    return Capped;
  }

  // ---------------------------------------------------------------------
  // What the loop promises
  // ---------------------------------------------------------------------

  /** The model is asked at most once per remaining iteration. */
  lemma {:induction false} RestBounded(model: Model, callTool: ToolFn, iteration: nat, sent: seq<Entry>)
    requires iteration <= MaxIterations
    decreases MaxIterations - iteration
    ensures Rest(model, callTool, iteration, sent).modelCalls <= MaxIterations - iteration
  {
    if iteration < MaxIterations && HasToolUse(model(sent)) {
      RestBounded(model, callTool, iteration + 1, sent + Round(model(sent), callTool));
    }
  }

  /**
   * Every tool round appends exactly two entries and the answer one: a turn
   * that ends with an answer after k rounds appended 2k + 1 entries, one cut
   * off by the cap 2k.
   */
  lemma {:induction false} RestGrowth(model: Model, callTool: ToolFn, iteration: nat, sent: seq<Entry>)
    requires iteration <= MaxIterations
    decreases MaxIterations - iteration
    ensures var t := Rest(model, callTool, iteration, sent);
      |t.added| == 2 * t.modelCalls - (if t.reply.Answer? then 1 else 0)
  {
    if iteration < MaxIterations && HasToolUse(model(sent)) {
      RestGrowth(model, callTool, iteration + 1, sent + Round(model(sent), callTool));
    }
  }

  /** The loop never appends a plain user message (tool results are a different kind of entry). */
  lemma {:induction false} RestAddsNoUserMsg(model: Model, callTool: ToolFn, iteration: nat, sent: seq<Entry>)
    requires iteration <= MaxIterations
    decreases MaxIterations - iteration
    ensures forall e | e in Rest(model, callTool, iteration, sent).added :: !IsUserMsg(e)
  {
    if iteration < MaxIterations && HasToolUse(model(sent)) {
      RestAddsNoUserMsg(model, callTool, iteration + 1, sent + Round(model(sent), callTool));
    }
  }

  /**
   * The two ways out of the loop: the first text of a reply without
   * `tool_use` blocks, as the last entry and the only plain message
   * appended; or the cap, after every remaining iteration asked for tools.
   */
  lemma {:induction false} RestOutcome(model: Model, callTool: ToolFn, iteration: nat, sent: seq<Entry>)
    requires iteration <= MaxIterations
    decreases MaxIterations - iteration
    ensures Outcome(Rest(model, callTool, iteration, sent), iteration)
  {
    if iteration < MaxIterations {
      var content := model(sent);
      if !HasToolUse(content) {
        AnswerIsAnswered(FirstText(content));
      } else {
        var round := Round(content, callTool);
        RestOutcome(model, callTool, iteration + 1, sent + round);
        RestStep(model, callTool, iteration, sent, sent + round);
        assert NoPlainMsg(round);
        AfterToolRound(round, RoundUses(content), Rest(model, callTool, iteration + 1, sent + round), iteration);
      }
    }
  }

  /** A model that always asks for a tool makes `chat` ask it ten times and give up. */
  lemma {:induction false} ToolHungryModelHitsCap(model: Model, callTool: ToolFn, iteration: nat, sent: seq<Entry>)
    requires iteration <= MaxIterations
    requires forall h :: HasToolUse(model(h))
    decreases MaxIterations - iteration
    ensures var t := Rest(model, callTool, iteration, sent);
      t.reply == Capped && t.modelCalls == MaxIterations - iteration
  {
    if iteration < MaxIterations {
      ToolHungryModelHitsCap(model, callTool, iteration + 1, sent + Round(model(sent), callTool));
    }
  }

  /**
   * The callers' view of one `chat`: an error from the setup changes
   * nothing; otherwise the user message is appended first and only once, at
   * most ten model calls are made, and k tool rounds followed by an answer
   * grow the history by 2k + 2 entries (21 when the cap is hit).
   */
  lemma ChatShape(setup: Setup, userInput: string, model: Model, callTool: ToolFn, history: seq<Entry>)
    ensures var t := ChatSpec(setup, userInput, model, callTool, history);
      && (!setup.hasLibrary ==> t == Refused(NoLibrary))
      && (setup.hasLibrary && KeyMissing(setup.apiKey) ==> t == Refused(NoKey))
      && (setup.hasLibrary && !KeyMissing(setup.apiKey) ==>
            && t.added[0] == UserMsg(userInput)
            && (forall k | 1 <= k < |t.added| :: !IsUserMsg(t.added[k]))
            && 1 <= t.modelCalls <= MaxIterations
            && (t.reply.Answer? ==> |t.added| == 2 * (t.modelCalls - 1) + 2)
            && (t.reply == Capped ==> |t.added| == 2 * MaxIterations + 1))
  {
    if setup.hasLibrary && !KeyMissing(setup.apiKey) {
      var sent := history + [UserMsg(userInput)];
      RestBounded(model, callTool, 0, sent);
      RestGrowth(model, callTool, 0, sent);
      RestAddsNoUserMsg(model, callTool, 0, sent);
      RestOutcome(model, callTool, 0, sent);
      AfterUserShape(userInput, Rest(model, callTool, 0, sent));
    }
  }

  /**
   * The first tool round: the whole reply, then one user entry whose k-th
   * result answers the k-th `tool_use` block with that block's id;
   * `tools_used` starts with those blocks' records in the same order.
   */
  lemma FirstRoundInOrder(setup: Setup, userInput: string, model: Model, callTool: ToolFn, history: seq<Entry>)
    requires setup.hasLibrary && !KeyMissing(setup.apiKey)
    requires HasToolUse(model(history + [UserMsg(userInput)]))
    ensures var content := model(history + [UserMsg(userInput)]);
      var ts := ToolUseBlocks(content);
      var t := ChatSpec(setup, userInput, model, callTool, history);
      && |t.added| >= 3
      && t.added[1] == AssistantBlocks(content)
      && t.added[2].UserResults?
      && |t.added[2].results| == |ts|
      && (forall k | 0 <= k < |ts| :: t.added[2].results[k] == ToolResult(ts[k].id, callTool(ts[k].name, ts[k].input)))
      && t.used[..|ts|] == UsesOfBlocks(ts)
  {
    var sent := history + [UserMsg(userInput)];
    var content := model(sent);
    var ts := ToolUseBlocks(content);
    var round := Round(content, callTool);
    RestStep(model, callTool, 0, sent, sent + round);
    var t := Rest(model, callTool, 1, sent + round);
    var w := Rest(model, callTool, 0, sent);
    assert ChatSpec(setup, userInput, model, callTool, history) == AfterUser(userInput, w);
    assert w.added == round + t.added && w.used == RoundUses(content) + t.used;
    var all := [UserMsg(userInput)] + (round + t.added);
    assert all[1] == round[0] && all[2] == round[1];
    forall k | 0 <= k < |ts|
      ensures round[1].results[k] == ToolResult(ts[k].id, callTool(ts[k].name, ts[k].input))
    {
      ResultsOfAt(ts, callTool, k);
    }
    assert (RoundUses(content) + t.used)[..|ts|] == UsesOfBlocks(ts);
  }
}
