/**
 * What the capped tool-calling loops of the providers have in common: how a
 * call of `chat` ends, what it appends to the two lists it is handed, and
 * the bookkeeping that ties a running loop to the whole of its
 * specification.
 */
module ToolLoop {
  import opened Seqs
  import opened McpTypes
  import opened Conversation

  /** `max_iterations` in every provider. */
  const MaxIterations: nat := 10

  /**
   * How a call of `chat` ends: with the model's text, or with one of the
   * provider's error strings (kept symbolic; each provider spells them out).
   */
  datatype Reply = Answer(text: string) | NoLibrary | NoKey | Capped

  /**
   * What one call of `chat` does: how it ends, the entries it appends to the
   * history, the `tools_used` records it appends (one per tool call, in
   * call order), and how many times it asks the model.
   */
  datatype Turn = Turn(reply: Reply, added: seq<Entry>, used: seq<ToolUse>, modelCalls: nat)

  /** The turn a setup error gives: nothing appended, the model never asked. */
  function Refused(r: Reply): Turn
  {
    Turn(r, [], [], 0)
  }

  /** A tool round of `round` entries and `uses` records, then the rest of the loop `t`. */
  function Then(round: seq<Entry>, uses: seq<ToolUse>, t: Turn): (w: Turn)
    ensures w.reply == t.reply && w.modelCalls == 1 + t.modelCalls
    ensures |w.added| == |round| + |t.added| && |w.used| == |uses| + |t.used|
  {
    Turn(t.reply, round + t.added, uses + t.used, 1 + t.modelCalls)
  }

  /** None of the entries is a plain `{"role": ..., "content": ...}` message. */
  predicate NoPlainMsg(es: seq<Entry>)
  {
    forall e | e in es :: !e.Msg?
  }

  /** The turn ended with a text answer: its last entry, and the only plain message in it. */
  predicate Answered(t: Turn)
  {
    && t.reply.Answer?
    && t.added != []
    && t.added[|t.added| - 1] == AssistantMsg(t.reply.text)
    && NoPlainMsg(t.added[..|t.added| - 1])
  }

  /** The two ways a turn can end, after `iteration` model calls have been spent. */
  predicate Outcome(t: Turn, iteration: nat)
    requires iteration <= MaxIterations
  {
    || Answered(t)
    || (t.reply == Capped && t.modelCalls == MaxIterations - iteration && NoPlainMsg(t.added))
  }

  /** A tool round in front of the rest of the loop keeps its outcome. */
  lemma AfterToolRound(round: seq<Entry>, uses: seq<ToolUse>, t: Turn, iteration: nat)
    requires NoPlainMsg(round) && iteration < MaxIterations
    requires Outcome(t, iteration + 1)
    ensures Outcome(Then(round, uses, t), iteration)
  {
    if Answered(t) {
      assert (round + t.added)[..|round + t.added| - 1] == round + t.added[..|t.added| - 1];
    }
  }

  /** A text answer ends the turn answered. */
  lemma AnswerIsAnswered(text: string)
    ensures Answered(Turn(Answer(text), [AssistantMsg(text)], [], 1))
  {
    assert [AssistantMsg(text)][..0] == [];
  }

  /**
   * The loop's accounting: the lists as they are now, followed by what the
   * rest of the loop `t` will append, are the lists at the start followed by
   * what the whole loop appends; and the loop will end as the whole does.
   */
  ghost predicate Accounts(t: Turn, entries: seq<Entry>, uses: seq<ToolUse>,
                           whole: Turn, start: seq<Entry>, uses0: seq<ToolUse>)
  {
    && t.reply == whole.reply
    && entries + t.added == start + whole.added
    && uses + t.used == uses0 + whole.used
  }

  /** A tool round moves what it appended from the rest of the loop onto the lists. */
  lemma AccountsStep(round: seq<Entry>, roundUses: seq<ToolUse>, next: Turn,
                     entries: seq<Entry>, uses: seq<ToolUse>, whole: Turn, start: seq<Entry>, uses0: seq<ToolUse>)
    requires Accounts(Then(round, roundUses, next), entries, uses, whole, start, uses0)
    ensures Accounts(next, entries + round, uses + roundUses, whole, start, uses0)
  {
    AppendAssoc(entries, round, next.added);
    AppendAssoc(uses, roundUses, next.used);
  }

  /** Nothing appended: both lists as they were. */
  lemma AppendNothing(entries: seq<Entry>, uses: seq<ToolUse>)
    ensures entries + [] == entries && uses + [] == uses
  {
  }

  /** At the end of the loop nothing is left to append. */
  lemma AccountsDone(t: Turn, entries: seq<Entry>, uses: seq<ToolUse>, whole: Turn, start: seq<Entry>, uses0: seq<ToolUse>)
    requires Accounts(t, entries, uses, whole, start, uses0)
    requires t.added == [] && t.used == []
    ensures entries == start + whole.added && uses == uses0 + whole.used
  {
    AppendNothing(entries, uses);
  }

  /** The turn of a whole `chat` that got past its setup: the user message, then the loop. */
  function AfterUser(userInput: string, t: Turn): Turn
  {
    Turn(t.reply, [UserMsg(userInput)] + t.added, t.used, t.modelCalls)
  }

  /** Prefixing the user message keeps every later entry and shifts it by one. */
  lemma AfterUserShape(userInput: string, t: Turn)
    ensures var w := AfterUser(userInput, t);
      && |w.added| == 1 + |t.added|
      && w.added[0] == UserMsg(userInput)
      && (forall k | 1 <= k < |w.added| :: w.added[k] == t.added[k - 1])
  {
  }
}
