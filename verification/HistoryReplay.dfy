/** The conversion as it runs: loops over a growing result, and a pending object whose awaited
    ids are struck off (core/anthropic/conversion.py). */
module HistoryReplay {
  import opened Text
  import opened History

  lemma RenderAppend(a: seq<Turn>, b: seq<Turn>)
    ensures RenderAll(a + b) == RenderAll(a) + RenderAll(b)
  {
    FlatMapAppend((t: Turn) => [Render(t)], a, b);
  }

  lemma RenderOne(t: Turn)
    ensures RenderAll([t]) == [Render(t)]
  {
    FlatMapOne((t: Turn) => [Render(t)], t);
  }

  lemma {:induction false} BeforeIsAllowed(blocks: seq<Block>)
    requires AssistantRefusal(blocks) == None
    ensures AssistantRefusal(Before(blocks)) == None && Calls(Before(blocks)) == []
  {
    if blocks != [] && !blocks[0].ToolUseB? {
      BeforeIsAllowed(blocks[1..]);
      assert ([blocks[0]] + Before(blocks[1..]))[1..] == Before(blocks[1..]);
    }
  }

  lemma {:induction false} OthersAreAllowed(blocks: seq<Block>)
    requires AssistantRefusal(blocks) == None
    ensures AssistantRefusal(FlatMap(UnlessToolUse, blocks)) == None
    ensures Calls(FlatMap(UnlessToolUse, blocks)) == []
  {
    if blocks != [] {
      OthersAreAllowed(blocks[1..]);
      var rest := FlatMap(UnlessToolUse, blocks[1..]);
      if !blocks[0].ToolUseB? {
        assert ([blocks[0]] + rest)[1..] == rest;
      } else {
        assert [] + rest == rest;
      }
    }
  }

  lemma {:induction false} BehindIsAllowed(blocks: seq<Block>)
    requires AssistantRefusal(blocks) == None
    ensures AssistantRefusal(Behind(blocks)) == None && Calls(Behind(blocks)) == []
  {
    if blocks != [] {
      if blocks[0].ToolUseB? {
        OthersAreAllowed(blocks[1..]);
      } else {
        BehindIsAllowed(blocks[1..]);
      }
    }
  }

  lemma {:induction false} NoCalls(blocks: seq<Block>)
    requires Calls(blocks) == []
    ensures Before(blocks) == blocks && Behind(blocks) == []
  {
    if blocks != [] {
      NoCalls(blocks[1..]);
      assert blocks == [blocks[0]] + blocks[1..];
    }
  }

  lemma {:induction false} PartTextsAppend(a: seq<Part>, b: seq<Part>)
    ensures PartTexts(a + b) == PartTexts(a) + PartTexts(b)
  {
    if a == [] {
      assert a + b == b;
    } else {
      assert (a + b)[1..] == a[1..] + b;
      PartTextsAppend(a[1..], b);
    }
  }

  lemma PartTextsOne(p: Part)
    ensures PartTexts([p]) == [PartText(p)]
  {
    assert [p][1..] == [];
  }

  /** What a block adds to the content. */
  function ContentPart(mode: ReplayMode, b: Block): seq<string> {
    PartTexts(PartsOf(mode, b))
  }

  lemma ContentPartIs(mode: ReplayMode, b: Block)
    ensures ContentPart(mode, b)
            == if b.TextB? then [b.text]
               else if b.ThinkingB? && mode == ThinkTags then [PartText(Thought(b.thinking))] else []
  {
    if PartsOf(mode, b) != [] {
      PartTextsOne(PartsOf(mode, b)[0]);
      assert PartsOf(mode, b) == [PartsOf(mode, b)[0]];
    }
  }

  /** What was gathered from a number of blocks: content, thoughts and calls. */
  ghost predicate Gathered(mode: ReplayMode, blocks: seq<Block>, texts: seq<string>, thoughts: seq<string>, calls: seq<ToolCall>)
  {
    texts == PartTexts(Parts(mode, blocks)) && thoughts == FlatMap(ThoughtOf, blocks) && calls == Calls(blocks)
  }

  lemma GatherOne(mode: ReplayMode, blocks: seq<Block>, b: Block, texts: seq<string>, thoughts: seq<string>, calls: seq<ToolCall>)
    requires Gathered(mode, blocks, texts, thoughts, calls)
    ensures Gathered(mode, blocks + [b], texts + ContentPart(mode, b), thoughts + ThoughtOf(b), calls + CallOf(b))
  {
    FlatMapSnoc((x: Block) => PartsOf(mode, x), blocks, b);
    PartTextsAppend(Parts(mode, blocks), PartsOf(mode, b));
    FlatMapSnoc(ThoughtOf, blocks, b);
    FlatMapSnoc(CallOf, blocks, b);
  }

  class PendingAfterTools {
    var remainingToolIds: set<string>
    const deferredBlocks: seq<Block>
    const topLevelReasoning: Option<string>
    const reasoningReplay: ReplayMode
    var deferredEmitted: bool

    constructor (ids: set<string>, blocks: seq<Block>, reasoning: Option<string>, mode: ReplayMode)
      ensures remainingToolIds == ids && deferredBlocks == blocks && topLevelReasoning == reasoning
      ensures reasoningReplay == mode && !deferredEmitted
    {
      remainingToolIds, deferredBlocks, topLevelReasoning, reasoningReplay := ids, blocks, reasoning, mode;
      deferredEmitted := false;
    }

    predicate NeedsDeferred()
      reads this
    {
      deferredBlocks != [] && !deferredEmitted
    }

    /** What the object holds, for an object that holds something. */
    function Abs(): Pending
      reads this
    {
      Pending(remainingToolIds, deferredBlocks, topLevelReasoning)
    }

    /** Its blocks went through the refusals of the message they came from. */
    predicate Valid() {
      && AssistantRefusal(deferredBlocks) == None && Calls(deferredBlocks) == []
      && topLevelReasoning == Clean(topLevelReasoning)
    }
  }

  function Held(p: PendingAfterTools?): Option<Pending>
    reads p
  {
    if p == null || !p.NeedsDeferred() then None else Some(p.Abs())
  }

  method ConvertAssistantMessage(content: seq<Block>, reasoning: Option<string>, mode: ReplayMode)
    returns (r: Result<Wire>)
    requires reasoning == Clean(reasoning)
    ensures match AssistantRefusal(content)
            case Some(error) => r == Err(error)
            case None =>
              var text := Content(Parts(mode, content));
              r == Ok(AssistantMsg(if Calls(content) == [] then Padded(text) else text,
                                   Calls(content), Reasoning(mode, reasoning, content)))
  {
    var contentParts, thinkingParts, toolCalls := [], [], [];
    ghost var thoughts := [];
    var i := 0;
    while i < |content|
      invariant 0 <= i <= |content|
      invariant AssistantRefusal(content) == AssistantRefusal(content[i..])
      invariant Gathered(mode, content[..i], contentParts, thoughts, toolCalls)
      invariant thinkingParts == if mode == ReasoningContent && reasoning.None? then thoughts else []
    {
      var b := content[i];
      assert content[i..][0] == b && content[i..][1..] == content[i + 1..];
      assert content[..i + 1] == content[..i] + [b];
      GatherOne(mode, content[..i], b, contentParts, thoughts, toolCalls);
      ContentPartIs(mode, b);
      thoughts := thoughts + ThoughtOf(b);
      match b {
        case TextB(text) =>
          contentParts := contentParts + [text];
        case ThinkingB(thinking) =>
          if mode == ThinkTags {
            contentParts := contentParts + [PartText(Thought(thinking))];
          } else if mode == ReasoningContent && reasoning.None? {
            thinkingParts := thinkingParts + [thinking];
          }
        case ToolUseB(call) =>
          toolCalls := toolCalls + [call];
        case ImageB =>
          return Err(AssistantImage);
        case ServerToolB(kind) =>
          return Err(ServerBlock(kind));
        case _ =>
      }
      i := i + 1;
    }
    assert content[..i] == content && content[i..] == [];
    var text := Join("\n\n", contentParts);
    if text == "" && toolCalls == [] {
      text := " ";
    }
    var replay := None;
    if mode == ReasoningContent {
      replay := if reasoning.Some? then reasoning else Clean(Some(Join("\n", thinkingParts)));
    }
    r := Ok(AssistantMsg(text, toolCalls, replay));
  }

  method DeferredPostToolToMessages(pending: PendingAfterTools) returns (messages: seq<Wire>)
    requires pending.Valid() && pending.deferredBlocks != []
    ensures messages == RenderAll([Group(pending.reasoningReplay, pending.Abs())])
  {
    var r := ConvertAssistantMessage(pending.deferredBlocks, pending.topLevelReasoning, pending.reasoningReplay);
    messages := [r.value];
    RenderOne(Group(pending.reasoningReplay, pending.Abs()));
  }

  method ConvertAssistantMessageWithSplit(content: seq<Block>, reasoning: Option<string>, mode: ReplayMode)
    returns (message: Wire, pending: PendingAfterTools?)
    requires Calls(content) != [] && AssistantRefusal(content) == None && reasoning == Clean(reasoning)
    ensures var pre := Before(content);
            message == Render(Said(Parts(mode, pre), Calls(content), Reasoning(mode, reasoning, pre)))
    ensures Held(pending) == NewPending(AssistantBlocks(content, reasoning))
    ensures pending != null ==> fresh(pending) && pending.Valid() && pending.NeedsDeferred()
                                && pending.reasoningReplay == mode
  {
    var pre := Before(content);
    var toolCalls := Calls(content);
    var deferredBlocks := Behind(content);
    BeforeIsAllowed(content);
    BehindIsAllowed(content);
    if pre == [] {
      message := AssistantMsg("", toolCalls, if mode == ReasoningContent then reasoning else None);
    } else {
      var r := ConvertAssistantMessage(pre, reasoning, mode);
      message := AssistantMsg(if r.value.content == " " then "" else r.value.content, toolCalls, r.value.reasoning);
    }
    pending := null;
    if deferredBlocks != [] {
      pending := new PendingAfterTools(Awaited(toolCalls), deferredBlocks, reasoning, mode);
    }
  }

  method ConvertUserMessage(content: seq<Block>) returns (r: Result<seq<Wire>>)
    ensures match UserRefusal(content)
            case Some(error) => r == Err(error)
            case None => r == Ok(RenderAll(Replay([], {}, [], content)))
  {
    var result: seq<Wire>, textParts: seq<string> := [], [];
    var i := 0;
    while i < |content|
      invariant 0 <= i <= |content|
      invariant UserRefusal(content) == UserRefusal(content[i..])
      invariant RenderAll(Replay([], {}, [], content)) == result + RenderAll(Replay([], {}, textParts, content[i..]))
    {
      var b := content[i];
      assert content[i..][0] == b && content[i..][1..] == content[i + 1..];
      match b {
        case TextB(text) =>
          textParts := textParts + [text];
        case ImageB =>
          return Err(UserImage);
        case ToolResultB(id, text) =>
          assert Answer({}, id) == {};
          ReplayOneResult([], {}, textParts, content[i..]);
          var flushed := FlushText(textParts);
          ConcatAssoc(result, flushed + [ToolMsg(id, text)], RenderAll(Replay([], {}, [], content[i + 1..])));
          result := result + (flushed + [ToolMsg(id, text)]);
          textParts := [];
        case _ =>
      }
      i := i + 1;
    }
    var flushed := FlushText(textParts);
    r := Ok(result + flushed);
  }

  /** What one result brings to the converted messages. */
  lemma ReplayOneResult(group: seq<Turn>, remaining: set<string>, texts: seq<string>, blocks: seq<Block>)
    requires blocks != [] && blocks[0].ToolResultB?
    ensures var left := Answer(remaining, blocks[0].id);
            RenderAll(Replay(group, remaining, texts, blocks))
            == RenderAll(FlushTexts(texts)) + [ToolMsg(blocks[0].id, blocks[0].content)]
               + RenderAll(if left == {} then group else []) + RenderAll(Replay(group, left, [], blocks[1..]))
  {
    var left := Answer(remaining, blocks[0].id);
    var r := Replayed(blocks[0].id, blocks[0].content);
    var g := if left == {} then group else [];
    RenderAppend(FlushTexts(texts) + [r] + g, Replay(group, left, [], blocks[1..]));
    RenderAppend(FlushTexts(texts) + [r], g);
    RenderAppend(FlushTexts(texts), [r]);
    RenderOne(r);
  }

  method FlushText(textParts: seq<string>) returns (messages: seq<Wire>)
    ensures messages == RenderAll(FlushTexts(textParts))
  {
    messages := [];
    if textParts != [] {
      RenderOne(Asked(textParts));
      messages := [UserMsg(Join("\n", textParts))];
    }
  }

  /** One result, with the deferred messages behind it if no id is awaited any more. */
  method InjectResult(id: Option<string>, text: string, textParts: seq<string>, pending: PendingAfterTools)
    returns (messages: seq<Wire>)
    requires pending.Valid() && pending.deferredBlocks != []
    modifies pending
    ensures pending.remainingToolIds == Answer(old(pending.remainingToolIds), id)
    ensures pending.deferredEmitted == (old(pending.deferredEmitted) || pending.remainingToolIds == {})
    ensures messages == RenderAll(FlushTexts(textParts)) + [ToolMsg(id, text)]
                        + RenderAll(if pending.remainingToolIds == {}
                                    then [Group(pending.reasoningReplay, pending.Abs())] else [])
  {
    messages := FlushText(textParts);
    messages := messages + [ToolMsg(id, text)];
    pending.remainingToolIds := pending.remainingToolIds - {id.GetOr("")};
    if pending.remainingToolIds == {} {
      var deferred := DeferredPostToolToMessages(pending);
      messages := messages + deferred;
      pending.deferredEmitted := true;
    }
  }

  method ConvertUserMessageWithInjection(content: seq<Block>, pending: PendingAfterTools)
    returns (r: Result<seq<Wire>>, cleared: bool)
    requires pending.Valid()
    modifies pending
    ensures !old(pending.NeedsDeferred()) || old(pending.remainingToolIds) == {}
            ==> pending.Abs() == old(pending.Abs()) && pending.deferredEmitted == old(pending.deferredEmitted)
                && !cleared
                && r == match UserRefusal(content)
                        case Some(error) => Err(error)
                        case None => Ok(RenderAll(Replay([], {}, [], content)))
    ensures old(pending.NeedsDeferred()) && old(pending.remainingToolIds) != {}
            ==> match UserRefusal(content)
                case Some(error) => r == Err(error)
                case None =>
                  var group := [Group(pending.reasoningReplay, old(pending.Abs()))];
                  && r == Ok(RenderAll(Replay(group, old(pending.remainingToolIds), [], content)))
                  && pending.remainingToolIds == Remaining(old(pending.remainingToolIds), content)
                  && (cleared <==> pending.remainingToolIds == {})
                  && pending.deferredEmitted == cleared
  {
    if !pending.NeedsDeferred() || pending.remainingToolIds == {} {
      r := ConvertUserMessage(content);
      return r, false;
    }
    ghost var group := [Group(pending.reasoningReplay, pending.Abs())];
    ghost var awaited := pending.remainingToolIds;
    var result: seq<Wire>, textParts: seq<string> := [], [];
    cleared := false;
    var i := 0;
    while i < |content|
      invariant 0 <= i <= |content|
      invariant UserRefusal(content) == UserRefusal(content[i..])
      invariant group == [Group(pending.reasoningReplay, pending.Abs())]
      invariant Remaining(awaited, content) == Remaining(pending.remainingToolIds, content[i..])
      invariant RenderAll(Replay(group, awaited, [], content))
                == result + RenderAll(Replay(group, pending.remainingToolIds, textParts, content[i..]))
      invariant cleared <==> pending.remainingToolIds == {}
      invariant pending.deferredEmitted == cleared
    {
      var b := content[i];
      assert content[i..][0] == b && content[i..][1..] == content[i + 1..];
      match b {
        case TextB(text) =>
          textParts := textParts + [text];
        case ImageB =>
          return Err(UserImage), cleared;
        case ToolResultB(id, text) =>
          ReplayOneResult(group, pending.remainingToolIds, textParts, content[i..]);
          var more := InjectResult(id, text, textParts, pending);
          textParts := [];
          cleared := pending.deferredEmitted;
          ConcatAssoc(result, more, RenderAll(Replay(group, pending.remainingToolIds, [], content[i + 1..])));
          result := result + more;
        case _ =>
      }
      i := i + 1;
    }
    var flushed := FlushText(textParts);
    r := Ok(result + flushed);
  }

  /** Emitting what is still pending. */
  method FlushPending(pending: PendingAfterTools?, mode: ReplayMode) returns (messages: seq<Wire>)
    requires pending != null ==> pending.Valid() && pending.reasoningReplay == mode
    ensures messages == RenderAll(Flushed(mode, Held(pending)))
  {
    messages := [];
    if pending != null && pending.NeedsDeferred() {
      messages := DeferredPostToolToMessages(pending);
    }
  }

  method ConvertAssistantBlocks(content: seq<Block>, reasoning: Option<string>, mode: ReplayMode)
    returns (r: Result<Wire>, pending: PendingAfterTools?)
    requires reasoning == Clean(reasoning)
    ensures match AssistantRefusal(content)
            case Some(error) => r == Err(error)
            case None =>
              var pre := Before(content);
              r == Ok(Render(Said(Parts(mode, pre), Calls(content), Reasoning(mode, reasoning, pre))))
    ensures r.Ok? ==> Held(pending) == NewPending(AssistantBlocks(content, reasoning))
    ensures pending != null ==> fresh(pending) && pending.Valid() && pending.NeedsDeferred()
                                && pending.reasoningReplay == mode
  {
    pending := null;
    if Calls(content) != [] {
      if AssistantRefusal(content).Some? {
        return Err(AssistantRefusal(content).value), null;
      }
      var message;
      message, pending := ConvertAssistantMessageWithSplit(content, reasoning, mode);
      r := Ok(message);
    } else {
      NoCalls(content);
      r := ConvertAssistantMessage(content, reasoning, mode);
    }
  }

  method ConvertUserBlocks(content: seq<Block>, pending: PendingAfterTools?, mode: ReplayMode)
    returns (r: Result<seq<Wire>>, pending': PendingAfterTools?)
    requires pending != null ==> pending.Valid() && pending.NeedsDeferred() && pending.reasoningReplay == mode
    modifies pending
    ensures match UserRefusal(content)
            case Some(error) => r == Err(error)
            case None =>
              && r == Ok(RenderAll(Step(mode, old(Held(pending)), UserBlocks(content)).0))
              && Held(pending') == Step(mode, old(Held(pending)), UserBlocks(content)).1
              && (pending' == null || (pending' == pending && pending'.NeedsDeferred()))
  {
    pending' := null;
    if pending == null {
      r := ConvertUserMessage(content);
    } else if pending.remainingToolIds == {} {
      var messages := DeferredPostToolToMessages(pending);
      pending.deferredEmitted := true;
      r := ConvertUserMessage(content);
      if r.Ok? {
        RenderAppend(Flushed(mode, Some(pending.Abs())), Replay([], {}, [], content));
        r := Ok(messages + r.value);
      }
    } else {
      var cleared;
      r, cleared := ConvertUserMessageWithInjection(content, pending);
      if !cleared {
        pending' := pending;
      }
    }
  }

  method ConvertAssistantString(text: string, reasoning: Option<string>, mode: ReplayMode) returns (message: Wire)
    requires reasoning == Clean(reasoning)
    ensures message == Render(Quoted(QuotedParts(mode, text, reasoning),
                                     if mode == ReasoningContent then reasoning else None))
  {
    var content := text;
    if reasoning.Some? && mode == ThinkTags {
      var contentParts := [PartText(Thought(reasoning.value))];
      if text != "" {
        contentParts := contentParts + [text];
      }
      content := Join("\n\n", contentParts);
    }
    QuotedContent(mode, text, reasoning);
    message := AssistantMsg(content, [], if mode == ReasoningContent then reasoning else None);
  }

  lemma StepSnoc(mode: ReplayMode, p: Option<Pending>, e: Entry)
    requires e.AssistantBlocks? || e.UserString?
    ensures var turns := Step(mode, p, e).0;
            turns != [] && RenderAll(turns) == RenderAll(Flushed(mode, p)) + [Render(turns[|turns| - 1])]
  {
    var turns := Step(mode, p, e).0;
    assert turns == Flushed(mode, p) + [turns[|turns| - 1]];
    RenderAppend(Flushed(mode, p), [turns[|turns| - 1]]);
    RenderOne(turns[|turns| - 1]);
  }

  /** One message of the history. */
  method ConvertEntry(e: Entry, pending: PendingAfterTools?, mode: ReplayMode)
    returns (r: Result<seq<Wire>>, pending': PendingAfterTools?)
    requires pending != null ==> pending.Valid() && pending.NeedsDeferred() && pending.reasoningReplay == mode
    modifies pending
    ensures match EntryRefusal(e)
            case Some(error) => r == Err(error)
            case None =>
              && r == Ok(RenderAll(Step(mode, old(Held(pending)), e).0))
              && Held(pending') == Step(mode, old(Held(pending)), e).1
              && (pending' != null ==> (pending' == pending || fresh(pending')) && pending'.Valid()
                                       && pending'.NeedsDeferred() && pending'.reasoningReplay == mode)
  {
    match e {
      case AssistantBlocks(blocks, reasoning) =>
        StepSnoc(mode, Held(pending), e);
        var messages := FlushPending(pending, mode);
        var message;
        message, pending' := ConvertAssistantBlocks(blocks, Clean(reasoning), mode);
        r := if message.Ok? then Ok(messages + [message.value]) else Err(message.error);
      case AssistantString(text, reasoning) =>
        var message := ConvertAssistantString(text, Clean(reasoning), mode);
        RenderOne(Step(mode, Held(pending), e).0[0]);
        r, pending' := Ok([message]), pending;
      case UserString(text) =>
        StepSnoc(mode, Held(pending), e);
        var messages := FlushPending(pending, mode);
        r, pending' := Ok(messages + [UserMsg(text)]), null;
      case UserBlocks(blocks) =>
        r, pending' := ConvertUserBlocks(blocks, pending, mode);
    }
  }

  method ConvertMessages(messages: seq<Entry>, mode: ReplayMode) returns (r: Result<seq<Wire>>)
    ensures r == Converted(mode, messages)
  {
    var result: seq<Wire>, pending: PendingAfterTools? := [], null;
    var i := 0;
    while i < |messages|
      invariant 0 <= i <= |messages|
      invariant pending != null ==> fresh(pending) && pending.Valid() && pending.NeedsDeferred()
                                    && pending.reasoningReplay == mode
      invariant Refusal(messages) == Refusal(messages[i..])
      invariant RenderAll(Turns(mode, None, messages))
                == result + RenderAll(Turns(mode, Held(pending), messages[i..]))
    {
      assert messages[i..][0] == messages[i] && messages[i..][1..] == messages[i + 1..];
      ghost var (turns, p') := Step(mode, Held(pending), messages[i]);
      var converted;
      converted, pending := ConvertEntry(messages[i], pending, mode);
      if converted.Err? {
        return Err(converted.error);
      }
      RenderAppend(turns, Turns(mode, p', messages[i + 1..]));
      ConcatAssoc(result, converted.value, RenderAll(Turns(mode, p', messages[i + 1..])));
      result := result + converted.value;
      i := i + 1;
    }
    var last := FlushPending(pending, mode);
    r := Ok(result + last);
  }

  lemma QuotedContent(mode: ReplayMode, text: string, own: Option<string>)
    ensures Content(QuotedParts(mode, text, own))
            == if mode == ThinkTags && own.Some?
               then Join("\n\n", [PartText(Thought(own.value))] + (if text == "" then [] else [text]))
               else text
  {
    if mode == ThinkTags && own.Some? {
      var thought := Thought(own.value);
      if text != "" {
        PartTextsAppend([thought], [Plain(text)]);
        PartTextsOne(Plain(text));
      } else {
        assert QuotedParts(mode, text, own) == [thought];
        assert [PartText(thought)] + [] == [PartText(thought)];
      }
      PartTextsOne(thought);
    } else {
      PartTextsOne(Plain(text));
    }
  }
}
