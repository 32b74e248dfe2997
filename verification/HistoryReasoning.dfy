/** The separate reasoning field of converted histories: when exactly every reasoning text comes
    out once (core/anthropic/conversion.py). */
module HistoryReasoning {
  import opened Text
  import opened History
  import opened HistoryClaims

  function Field(reasoning: Option<string>): seq<string> {
    if reasoning.Some? then [reasoning.value] else []
  }

  function PromptField(t: Turn): seq<string> {
    match t
    case Said(_, _, reasoning) => Field(reasoning)
    case Quoted(_, reasoning) => Field(reasoning)
    case _ => []
  }

  function LateField(t: Turn): seq<string> {
    if t.Deferred? then Field(t.reasoning) else []
  }

  function FieldOf(t: Turn): seq<string> {
    PromptField(t) + LateField(t)
  }

  /** All reasoning fields of a converted history. */
  function FieldsOut(turns: seq<Turn>): seq<string> {
    FlatMap(FieldOf, turns)
  }

  /** What a message has to say in front of its tool calls, or without any: its own reasoning, or
      else the thoughts among the blocks there. */
  function PromptFieldIn(e: Entry): seq<string> {
    match e
    case AssistantBlocks(blocks, reasoning) => Field(Reasoning(ReasoningContent, Clean(reasoning), Before(blocks)))
    case AssistantString(_, reasoning) => Field(Clean(reasoning))
    case _ => []
  }

  /** The thoughts behind its tool calls, unless it has reasoning of its own. */
  function LateFieldIn(e: Entry): seq<string> {
    if e.AssistantBlocks? && Clean(e.reasoning).None? && Behind(e.blocks) != []
    then Field(Reasoning(ReasoningContent, None, Behind(e.blocks))) else []
  }

  function FieldIn(e: Entry): seq<string> {
    PromptFieldIn(e) + LateFieldIn(e)
  }

  /** The reasoning texts of a history, each one once. */
  function FieldsIn(history: seq<Entry>): seq<string> {
    FlatMap(FieldIn, history)
  }

  // ---------------------------------------------------------------- fields that are not deferred

  predicate NoPrompts(turns: seq<Turn>) {
    forall t :: t in turns ==> PromptField(t) == []
  }

  lemma {:induction false} ReplayHasNoPrompts(group: seq<Turn>, remaining: set<string>, texts: seq<string>, blocks: seq<Block>)
    requires NoPrompts(group)
    ensures NoPrompts(Replay(group, remaining, texts, blocks))
    decreases |blocks|
  {
    if blocks != [] {
      match blocks[0]
      case TextB(text) => ReplayHasNoPrompts(group, remaining, texts + [text], blocks[1..]);
      case ToolResultB(id, content) => ReplayHasNoPrompts(group, Answer(remaining, id), [], blocks[1..]);
      case _ => ReplayHasNoPrompts(group, remaining, texts, blocks[1..]);
    }
  }

  lemma StepPrompts(p: Option<Pending>, e: Entry)
    ensures FlatMap(PromptField, Step(ReasoningContent, p, e).0) == PromptFieldIn(e)
  {
    var turns := Step(ReasoningContent, p, e).0;
    var front := Flushed(ReasoningContent, p);
    if e.UserBlocks? {
      ReplayHasNoPrompts([], {}, [], e.blocks);
      if p.Some? {
        ReplayHasNoPrompts(front, p.value.remaining, [], e.blocks);
      }
      FlatMapNone(PromptField, turns);
    } else if e.AssistantString? {
      FlatMapOne(PromptField, turns[0]);
    } else {
      var last := turns[|turns| - 1];
      assert turns == front + [last];
      FlatMapNone(PromptField, front);
      FlatMapSnoc(PromptField, front, last);
    }
  }

  lemma {:induction false} PromptFieldsAgree(p: Option<Pending>, history: seq<Entry>)
    ensures FlatMap(PromptField, Turns(ReasoningContent, p, history)) == FlatMap(PromptFieldIn, history)
    decreases |history|
  {
    if history == [] {
      FlatMapNone(PromptField, Flushed(ReasoningContent, p));
    } else {
      var (turns, p') := Step(ReasoningContent, p, history[0]);
      StepPrompts(p, history[0]);
      PromptFieldsAgree(p', history[1..]);
      FlatMapAppend(PromptField, turns, Turns(ReasoningContent, p', history[1..]));
    }
  }

  // ---------------------------------------------------------------- fields of deferred groups

  lemma {:induction false} LateFields(turns: seq<Turn>)
    ensures FlatMap(LateField, turns) == FlatMap(LateField, AllDeferred(turns))
  {
    if turns != [] {
      LateFields(turns[1..]);
      FlatMapAppend(LateField, DeferredOf(turns[0]), AllDeferred(turns[1..]));
      if turns[0].Deferred? {
        FlatMapOne(LateField, turns[0]);
      }
    }
  }

  lemma {:induction false} FieldTimes(n: nat, g: Turn)
    requires g.Deferred?
    ensures FlatMap(LateField, Times(n, g)) == Times(if g.reasoning.Some? then n else 0, g.reasoning.GetOr(""))
    decreases n
  {
    if n > 0 {
      FieldTimes(n - 1, g);
      assert Times(n, g)[1..] == Times(n - 1, g);
    }
  }

  lemma {:induction false} TimesLength<T>(n: nat, x: T)
    ensures |Times(n, x)| == n
  {
    if n > 0 {
      TimesLength(n - 1, x);
    }
  }

  /** The reasoning of the message comes out once: nothing is deferred, or the message has no
      reasoning of its own and its deferred thoughts, if there are any, are emitted once. */
  predicate SaidOnce(e: Entry, rest: seq<Entry>) {
    var p := NewPending(e);
    p.Some? ==>
      && p.value.reasoning.None?
      && (LateFieldIn(e) == [] || Copies(p.value.remaining, rest) == 1)
  }

  predicate AllSaidOnce(history: seq<Entry>) {
    history == [] || (SaidOnce(history[0], history[1..]) && AllSaidOnce(history[1..]))
  }

  lemma FieldsOfGroup(e: Entry, rest: seq<Entry>)
    ensures var now := FlatMap(LateField, CopiesOf(ReasoningContent, NewPending(e), rest));
            && |now| >= |LateFieldIn(e)|
            && (SaidOnce(e, rest) ==> now == LateFieldIn(e))
            && (!SaidOnce(e, rest) ==> |now| > |LateFieldIn(e)|)
  {
    var p := NewPending(e);
    if p.Some? {
      var n, g := Copies(p.value.remaining, rest), Group(ReasoningContent, p.value);
      CopiesAtLeastOne(p.value.remaining, rest);
      FieldTimes(n, g);
      TimesLength(n, g.reasoning.GetOr(""));
      TimesOne(g.reasoning.GetOr(""));
    }
  }

  lemma {:induction false} FieldsOfGroups(history: seq<Entry>)
    ensures var out, once := FlatMap(LateField, Groups(ReasoningContent, history)), FlatMap(LateFieldIn, history);
            && |out| >= |once|
            && (AllSaidOnce(history) ==> out == once)
            && (!AllSaidOnce(history) ==> |out| > |once|)
    decreases |history|
  {
    if history != [] {
      FieldsOfGroups(history[1..]);
      FieldsOfGroup(history[0], history[1..]);
      FlatMapAppend(LateField, CopiesOf(ReasoningContent, NewPending(history[0]), history[1..]),
                    Groups(ReasoningContent, history[1..]));
    }
  }

  /** Every reasoning text comes out exactly as often as it came in. */
  ghost predicate KeepsReasoning(history: seq<Entry>) {
    multiset(FieldsOut(Turns(ReasoningContent, None, history))) == multiset(FieldsIn(history))
  }

  /** Reasoning is kept if and only if no message with reasoning of its own has anything behind
      its tool calls, where it would be written again, and no deferred thoughts are repeated by a
      further result. */
  lemma ReasoningIsKeptExactly(history: seq<Entry>)
    ensures KeepsReasoning(history) <==> AllSaidOnce(history)
  {
    var turns := Turns(ReasoningContent, None, history);
    SplitInTwo(PromptField, LateField, FieldOf, turns);
    SplitInTwo(PromptFieldIn, LateFieldIn, FieldIn, history);
    PromptFieldsAgree(None, history);
    GroupsAppear(ReasoningContent, None, history);
    LateFields(turns);
    assert [] + Groups(ReasoningContent, history) == Groups(ReasoningContent, history);
    FieldsOfGroups(history);
    if !AllSaidOnce(history) {
      SizesDiffer(multiset(FlatMap(PromptField, turns)), FlatMap(LateField, Groups(ReasoningContent, history)),
                  FlatMap(LateFieldIn, history));
    }
  }

  /** The smallest case that fails: a tool call, a text behind it, and reasoning. */
  lemma OwnReasoningIsWrittenTwice(call: ToolCall, text: string, own: string)
    requires own != ""
    ensures !KeepsReasoning([AssistantBlocks([ToolUseB(call), TextB(text)], Some(own))])
  {
    var e := AssistantBlocks([ToolUseB(call), TextB(text)], Some(own));
    assert e.blocks[1..] == [TextB(text)];
    FlatMapOne(UnlessToolUse, TextB(text));
    assert !SaidOnce(e, [e][1..]);
    ReasoningIsKeptExactly([e]);
  }
}
