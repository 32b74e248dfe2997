/** What stands on the wire after a history was converted, written out from the blocks of the
    messages themselves (core/anthropic/conversion.py). */
module HistoryWire {
  import opened Text
  import opened History
  import opened HistoryReplay
  import opened HistoryClaims

  // ---------------------------------------------------------------- the blocks of a message

  /** The place of the first tool use, or the end. */
  function FirstToolUse(blocks: seq<Block>): (n: nat)
    ensures n <= |blocks| && forall k :: 0 <= k < n ==> !blocks[k].ToolUseB?
    ensures n < |blocks| ==> blocks[n].ToolUseB?
  {
    if blocks == [] || blocks[0].ToolUseB? then 0 else 1 + FirstToolUse(blocks[1..])
  }

  /** The place of the first tool result, or the end. */
  function FirstResult(blocks: seq<Block>): (n: nat)
    ensures n <= |blocks| && forall k :: 0 <= k < n ==> !blocks[k].ToolResultB?
    ensures n < |blocks| ==> blocks[n].ToolResultB?
  {
    if blocks == [] || blocks[0].ToolResultB? then 0 else 1 + FirstResult(blocks[1..])
  }

  function Uses(blocks: seq<Block>): seq<ToolCall> {
    FlatMap((b: Block) => if b.ToolUseB? then [b.call] else [], blocks)
  }

  function NoUses(blocks: seq<Block>): seq<Block> {
    FlatMap((b: Block) => if b.ToolUseB? then [] else [b], blocks)
  }

  /** What a block says in the content of a message: its text, or its thought between tags. */
  function Utterance(mode: ReplayMode, b: Block): seq<string> {
    match b
    case TextB(text) => [text]
    case ThinkingB(thinking) => if mode == ThinkTags then ["<think>\n" + thinking + "\n</think>"] else []
    case _ => []
  }

  function Speech(mode: ReplayMode, blocks: seq<Block>): string {
    Join("\n\n", FlatMap((b: Block) => Utterance(mode, b), blocks))
  }

  function Thoughts(blocks: seq<Block>): string {
    Join("\n", FlatMap((b: Block) => if b.ThinkingB? then [b.thinking] else [], blocks))
  }

  /** The reasoning field: only in its own mode, and never empty. */
  function ReasoningField(mode: ReplayMode, own: Option<string>, blocks: seq<Block>): Option<string> {
    if mode != ReasoningContent then None
    else if own.GetOr("") != "" then own
    else if Thoughts(blocks) != "" then Some(Thoughts(blocks))
    else None
  }

  // ---------------------------------------------------------------- what each message becomes

  function RunOf(texts: seq<string>): seq<Wire> {
    if texts == [] then [] else [UserMsg(Join("\n", texts))]
  }

  function TextsOf(blocks: seq<Block>): seq<string> {
    FlatMap((b: Block) => if b.TextB? then [b.text] else [], blocks)
  }

  /** A user's blocks: each run of texts between results in one message, each result by itself. */
  function UserSide(blocks: seq<Block>): seq<Wire>
    decreases |blocks|
  {
    var n := FirstResult(blocks);
    RunOf(TextsOf(blocks[..n]))
    + if n == |blocks| then [] else [ToolMsg(blocks[n].id, blocks[n].content)] + UserSide(blocks[n + 1..])
  }

  /** The messages of users and tools that an entry becomes. */
  function OfUser(e: Entry): seq<Wire> {
    match e
    case UserString(text) => [UserMsg(text)]
    case UserBlocks(blocks) => UserSide(blocks)
    case _ => []
  }

  /** The message with tool calls that an entry becomes: the calls, what was said in front of the
      first one, where a lone space counts as nothing, and the reasoning that belongs to that. */
  function OfCalls(mode: ReplayMode, e: Entry): seq<Wire> {
    if !e.AssistantBlocks? || Uses(e.blocks) == [] then []
    else
      var pre := e.blocks[..FirstToolUse(e.blocks)];
      var speech := Speech(mode, pre);
      [AssistantMsg(if speech == " " then "" else speech, Uses(e.blocks), ReasoningField(mode, e.reasoning, pre))]
  }

  function NotEmpty(speech: string): string {
    if speech == "" then " " else speech
  }

  /** The message without tool calls that an entry becomes at once. */
  function OfSpeech(mode: ReplayMode, e: Entry): seq<Wire> {
    match e
    case AssistantBlocks(blocks, own) =>
      if Uses(blocks) != [] then []
      else [AssistantMsg(NotEmpty(Speech(mode, blocks)), [], ReasoningField(mode, own, blocks))]
    case AssistantString(text, own) =>
      var thought := mode == ThinkTags && own.GetOr("") != "";
      [AssistantMsg(if !thought then text
                    else if text == "" then "<think>\n" + own.value + "\n</think>"
                    else "<think>\n" + own.value + "\n</think>" + "\n\n" + text,
                    [], ReasoningField(mode, own, []))]
    case _ => []
  }

  /** The message that is deferred behind the tool calls of an entry, if there is any. */
  function OfLater(mode: ReplayMode, e: Entry): seq<Wire> {
    if !e.AssistantBlocks? || FirstToolUse(e.blocks) == |e.blocks| then []
    else
      var later := NoUses(e.blocks[FirstToolUse(e.blocks) + 1..]);
      if later == [] then []
      else [AssistantMsg(NotEmpty(Speech(mode, later)), [], ReasoningField(mode, e.reasoning, later))]
  }

  /** The deferred messages of a history, each as often as the messages behind it say. */
  function AllLater(mode: ReplayMode, history: seq<Entry>): seq<Wire>
    decreases |history|
  {
    if history == [] then []
    else
      var later := OfLater(mode, history[0]);
      (if later == [] then [] else Times(Copies(Ids(history[0]), history[1..]), later[0]))
      + AllLater(mode, history[1..])
  }

  /** The ids whose results are awaited. */
  function Ids(e: Entry): set<string> {
    if e.AssistantBlocks? then Awaited(Calls(e.blocks)) else {}
  }

  // ---------------------------------------------------------------- the helpers of the conversion

  /** Results are awaited for exactly the ids that are not blank. */
  lemma {:induction false} AwaitedExactly(calls: seq<ToolCall>, id: string)
    ensures id in Awaited(calls) <==> !IsBlank(id) && exists c :: c in calls && c.id == Some(id)
  {
    if calls != [] {
      AwaitedExactly(calls[1..], id);
      assert calls == [calls[0]] + calls[1..];
    }
  }

  lemma {:induction false} UsesAreCalls(blocks: seq<Block>)
    ensures Uses(blocks) == Calls(blocks) && NoUses(blocks) == FlatMap(UnlessToolUse, blocks)
    ensures Uses(blocks) == [] <==> FirstToolUse(blocks) == |blocks|
  {
    if blocks != [] {
      UsesAreCalls(blocks[1..]);
    }
  }

  /** The blocks are cut at the first tool use. */
  lemma {:induction false} CutAtFirstToolUse(blocks: seq<Block>)
    ensures var n := FirstToolUse(blocks);
            && Before(blocks) == blocks[..n]
            && Behind(blocks) == if n == |blocks| then [] else NoUses(blocks[n + 1..])
  {
    if blocks != [] {
      if blocks[0].ToolUseB? {
        UsesAreCalls(blocks[1..]);
      } else {
        var n := FirstToolUse(blocks[1..]);
        CutAtFirstToolUse(blocks[1..]);
        assert blocks[..n + 1] == [blocks[0]] + blocks[1..][..n];
        assert n < |blocks[1..]| ==> blocks[n + 2..] == blocks[1..][n + 1..];
      }
    }
  }

  lemma {:induction false} SpeechIsContent(mode: ReplayMode, blocks: seq<Block>)
    ensures PartTexts(Parts(mode, blocks)) == FlatMap((b: Block) => Utterance(mode, b), blocks)
  {
    if blocks != [] {
      SpeechIsContent(mode, blocks[1..]);
      PartTextsAppend(PartsOf(mode, blocks[0]), Parts(mode, blocks[1..]));
      if PartsOf(mode, blocks[0]) != [] {
        PartTextsOne(PartsOf(mode, blocks[0])[0]);
        assert PartsOf(mode, blocks[0]) == [PartsOf(mode, blocks[0])[0]];
      }
    }
  }

  lemma {:induction false} ThoughtsAre(blocks: seq<Block>)
    ensures FlatMap(ThoughtOf, blocks) == FlatMap((b: Block) => if b.ThinkingB? then [b.thinking] else [], blocks)
  {
    if blocks != [] {
      ThoughtsAre(blocks[1..]);
    }
  }

  lemma FieldIs(mode: ReplayMode, own: Option<string>, blocks: seq<Block>)
    ensures Reasoning(mode, Clean(own), blocks) == ReasoningField(mode, own, blocks)
  {
    ThoughtsAre(blocks);
  }

  // ---------------------------------------------------------------- projections of the turns

  /** The projection sees nothing of deferred groups. */
  ghost predicate Blind(f: Turn -> seq<Wire>) {
    forall t: Turn :: t.Deferred? ==> f(t) == []
  }

  lemma BlindToGroup(f: Turn -> seq<Wire>, mode: ReplayMode, p: Option<Pending>)
    requires Blind(f)
    ensures FlatMap(f, Flushed(mode, p)) == []
  {
    if p.Some? {
      FlatMapOne(f, Group(mode, p.value));
    }
  }

  lemma BlindResult(f: Turn -> seq<Wire>, group: seq<Turn>, texts: seq<string>, r: Turn, rest: seq<Turn>)
    requires FlatMap(f, group) == []
    ensures FlatMap(f, FlushTexts(texts) + [r] + group + rest) == FlatMap(f, FlushTexts(texts) + [r]) + FlatMap(f, rest)
  {
    FlatMapAppend(f, FlushTexts(texts) + [r] + group, rest);
    FlatMapAppend(f, FlushTexts(texts) + [r], group);
    assert FlatMap(f, FlushTexts(texts) + [r]) + [] == FlatMap(f, FlushTexts(texts) + [r]);
  }

  lemma {:induction false} ReplayIgnoresGroup(f: Turn -> seq<Wire>, group: seq<Turn>, remaining: set<string>,
                                              texts: seq<string>, blocks: seq<Block>)
    requires FlatMap(f, group) == []
    ensures FlatMap(f, Replay(group, remaining, texts, blocks)) == FlatMap(f, Replay([], {}, texts, blocks))
    decreases |blocks|
  {
    if blocks != [] {
      match blocks[0]
      case TextB(text) => ReplayIgnoresGroup(f, group, remaining, texts + [text], blocks[1..]);
      case ToolResultB(id, content) =>
        var left, r := Answer(remaining, id), Replayed(id, content);
        assert Answer({}, id) == {};
        ReplayIgnoresGroup(f, group, left, [], blocks[1..]);
        BlindResult(f, if left == {} then group else [], texts, r, Replay(group, left, [], blocks[1..]));
        BlindResult(f, [], texts, r, Replay([], {}, [], blocks[1..]));
      case _ => ReplayIgnoresGroup(f, group, remaining, texts, blocks[1..]);
    }
  }

  /** The turns of a message by itself. */
  function OwnTurns(mode: ReplayMode, e: Entry): seq<Turn> {
    Step(mode, None, e).0
  }

  lemma StepIgnoresPending(f: Turn -> seq<Wire>, mode: ReplayMode, p: Option<Pending>, e: Entry)
    requires Blind(f)
    ensures FlatMap(f, Step(mode, p, e).0) == FlatMap(f, OwnTurns(mode, e))
  {
    BlindToGroup(f, mode, p);
    if e.UserBlocks? {
      var own := Replay([], {}, [], e.blocks);
      if p.Some? && p.value.remaining != {} {
        ReplayIgnoresGroup(f, Flushed(mode, p), p.value.remaining, [], e.blocks);
      } else if p.Some? {
        BehindGroup(f, Flushed(mode, p), own);
      }
    } else if !e.AssistantString? {
      var own := OwnTurns(mode, e);
      assert [] + own == own;
      assert Step(mode, p, e).0 == Flushed(mode, p) + own;
      BehindGroup(f, Flushed(mode, p), own);
    }
  }

  lemma BehindGroup(f: Turn -> seq<Wire>, group: seq<Turn>, own: seq<Turn>)
    requires FlatMap(f, group) == []
    ensures FlatMap(f, group + own) == FlatMap(f, own)
  {
    FlatMapAppend(f, group, own);
    assert [] + FlatMap(f, own) == FlatMap(f, own);
  }

  /** What a projection sees of a conversion is what it sees of each message by itself. */
  lemma {:induction false} Projects(f: Turn -> seq<Wire>, g: Entry -> seq<Wire>, mode: ReplayMode,
                                    p: Option<Pending>, history: seq<Entry>)
    requires Blind(f) && forall e :: FlatMap(f, OwnTurns(mode, e)) == g(e)
    ensures FlatMap(f, Turns(mode, p, history)) == FlatMap(g, history)
    decreases |history|
  {
    if history == [] {
      BlindToGroup(f, mode, p);
    } else {
      var (turns, p') := Step(mode, p, history[0]);
      StepIgnoresPending(f, mode, p, history[0]);
      Projects(f, g, mode, p', history[1..]);
      FlatMapAppend(f, turns, Turns(mode, p', history[1..]));
    }
  }

  /** What is seen of the wire is what is seen of the turns. */
  lemma {:induction false} SeenAs(h: Wire -> seq<Wire>, f: Turn -> seq<Wire>, turns: seq<Turn>)
    requires forall t: Turn :: f(t) == h(Render(t))
    ensures FlatMap(h, RenderAll(turns)) == FlatMap(f, turns)
  {
    if turns != [] {
      SeenAs(h, f, turns[1..]);
      FlatMapAppend(h, [Render(turns[0])], RenderAll(turns[1..]));
      FlatMapOne(h, Render(turns[0]));
    }
  }

  // ---------------------------------------------------------------- users and tools

  function UserOrTool(w: Wire): seq<Wire> {
    if w.AssistantMsg? then [] else [w]
  }

  function UserTurn(t: Turn): seq<Wire> {
    UserOrTool(Render(t))
  }

  lemma FlushedRun(texts: seq<string>)
    ensures FlatMap(UserTurn, FlushTexts(texts)) == RunOf(texts)
  {
    if texts != [] {
      FlatMapOne(UserTurn, Asked(texts));
    }
  }

  /** The rest of a message when a run of texts has begun. */
  function SideFrom(texts: seq<string>, blocks: seq<Block>): seq<Wire> {
    var n := FirstResult(blocks);
    RunOf(texts + TextsOf(blocks[..n]))
    + if n == |blocks| then [] else [ToolMsg(blocks[n].id, blocks[n].content)] + UserSide(blocks[n + 1..])
  }

  lemma SideNext(texts: seq<string>, blocks: seq<Block>)
    requires blocks != [] && !blocks[0].ToolResultB?
    ensures SideFrom(texts, blocks) == SideFrom(texts + (if blocks[0].TextB? then [blocks[0].text] else []), blocks[1..])
  {
    var n := FirstResult(blocks[1..]);
    var f := (b: Block) => if b.TextB? then [b.text] else [];
    assert blocks[..n + 1] == [blocks[0]] + blocks[1..][..n];
    FlatMapAppend(f, [blocks[0]], blocks[1..][..n]);
    FlatMapOne(f, blocks[0]);
    ConcatAssoc(texts, f(blocks[0]), TextsOf(blocks[1..][..n]));
    assert n < |blocks[1..]| ==> blocks[n + 2..] == blocks[1..][n + 1..];
  }

  lemma RunAndResult(texts: seq<string>, id: Option<string>, content: string)
    ensures FlatMap(UserTurn, FlushTexts(texts) + [Replayed(id, content)]) == RunOf(texts) + [ToolMsg(id, content)]
  {
    FlatMapSnoc(UserTurn, FlushTexts(texts), Replayed(id, content));
    FlushedRun(texts);
  }

  lemma ResultIsSide(texts: seq<string>, blocks: seq<Block>)
    requires blocks != [] && blocks[0].ToolResultB?
    requires FlatMap(UserTurn, Replay([], {}, [], blocks[1..])) == UserSide(blocks[1..])
    ensures FlatMap(UserTurn, Replay([], {}, texts, blocks)) == SideFrom(texts, blocks)
  {
    var r, rest := Replayed(blocks[0].id, blocks[0].content), Replay([], {}, [], blocks[1..]);
    assert Answer({}, blocks[0].id) == {};
    BlindResult(UserTurn, [], texts, r, rest);
    RunAndResult(texts, blocks[0].id, blocks[0].content);
    assert blocks[..0] == [] && texts + [] == texts;
    ConcatAssoc(RunOf(texts), [ToolMsg(blocks[0].id, blocks[0].content)], UserSide(blocks[1..]));
  }

  lemma {:induction false} ReplayIsSide(texts: seq<string>, blocks: seq<Block>)
    ensures FlatMap(UserTurn, Replay([], {}, texts, blocks)) == SideFrom(texts, blocks)
    decreases |blocks|
  {
    if blocks == [] {
      FlushedRun(texts);
      assert texts + [] == texts && RunOf(texts) + [] == RunOf(texts);
    } else {
      match blocks[0]
      case ToolResultB(id, content) =>
        ReplayIsSide([], blocks[1..]);
        SideOfNone(blocks[1..]);
        ResultIsSide(texts, blocks);
      case TextB(text) =>
        SideNext(texts, blocks);
        ReplayIsSide(texts + [text], blocks[1..]);
      case _ =>
        SideNext(texts, blocks);
        assert texts + [] == texts;
        ReplayIsSide(texts, blocks[1..]);
    }
  }

  lemma SideOfNone(blocks: seq<Block>)
    ensures SideFrom([], blocks) == UserSide(blocks)
  {
    var texts := TextsOf(blocks[..FirstResult(blocks)]);
    assert [] + texts == texts;
  }

  lemma UserTurnsOf(mode: ReplayMode, e: Entry)
    ensures FlatMap(UserTurn, OwnTurns(mode, e)) == OfUser(e)
  {
    match e
    case UserString(text) =>
      assert OwnTurns(mode, e) == [Asked([text])];
      FlatMapOne(UserTurn, Asked([text]));
    case UserBlocks(blocks) =>
      ReplayIsSide([], blocks);
      SideOfNone(blocks);
    case _ =>
      assert OwnTurns(mode, e) == [OwnTurns(mode, e)[0]];
      FlatMapOne(UserTurn, OwnTurns(mode, e)[0]);
  }

  /** On the wire the messages of users and tools are, in order, those of the history: each string,
      each run of texts between results joined with line feeds, and each result. */
  lemma UsersAreHeard(mode: ReplayMode, history: seq<Entry>)
    requires Converted(mode, history).Ok?
    ensures FlatMap(UserOrTool, Converted(mode, history).value) == FlatMap(OfUser, history)
  {
    SeenAs(UserOrTool, UserTurn, Turns(mode, None, history));
    forall e
      ensures FlatMap(UserTurn, OwnTurns(mode, e)) == OfUser(e)
    {
      UserTurnsOf(mode, e);
    }
    Projects(UserTurn, OfUser, mode, None, history);
  }

  // ---------------------------------------------------------------- tool calls

  function WithCalls(w: Wire): seq<Wire> {
    if w.AssistantMsg? && w.calls != [] then [w] else []
  }

  function CallTurn(t: Turn): seq<Wire> {
    WithCalls(Render(t))
  }

  lemma {:induction false} ReplayHasNoAssistant(texts: seq<string>, blocks: seq<Block>)
    ensures forall t :: t in Replay([], {}, texts, blocks) ==> t.Asked? || t.Replayed?
    decreases |blocks|
  {
    if blocks != [] {
      match blocks[0]
      case TextB(text) => ReplayHasNoAssistant(texts + [text], blocks[1..]);
      case ToolResultB(id, content) =>
        assert Answer({}, id) == {};
        ReplayHasNoAssistant([], blocks[1..]);
      case _ => ReplayHasNoAssistant(texts, blocks[1..]);
    }
  }

  /** The turn of an assistant's message that is not deferred. */
  lemma AssistantTurn(mode: ReplayMode, e: Entry)
    requires e.AssistantBlocks?
    ensures var pre := e.blocks[..FirstToolUse(e.blocks)];
            && |OwnTurns(mode, e)| == 1
            && OwnTurns(mode, e)[0] == Said(Parts(mode, pre), Uses(e.blocks), ReasoningField(mode, e.reasoning, pre))
            && Content(Parts(mode, pre)) == Speech(mode, pre)
            && (Uses(e.blocks) == [] <==> pre == e.blocks)
  {
    var pre := e.blocks[..FirstToolUse(e.blocks)];
    CutAtFirstToolUse(e.blocks);
    UsesAreCalls(e.blocks);
    FieldIs(mode, e.reasoning, pre);
    SpeechIsContent(mode, pre);
  }

  lemma CallTurnsOf(mode: ReplayMode, e: Entry)
    ensures FlatMap(CallTurn, OwnTurns(mode, e)) == OfCalls(mode, e)
  {
    match e
    case AssistantBlocks(_, _) =>
      AssistantTurn(mode, e);
      assert OwnTurns(mode, e) == [OwnTurns(mode, e)[0]];
      FlatMapOne(CallTurn, OwnTurns(mode, e)[0]);
    case UserBlocks(blocks) =>
      ReplayHasNoAssistant([], blocks);
      FlatMapNone(CallTurn, OwnTurns(mode, e));
    case _ =>
      assert OwnTurns(mode, e) == [OwnTurns(mode, e)[0]];
      FlatMapOne(CallTurn, OwnTurns(mode, e)[0]);
  }

  /** On the wire the messages with tool calls are, in order, those of the history, each with all
      its calls, the text in front of the first one and the reasoning that belongs to it. */
  lemma CallsAreMade(mode: ReplayMode, history: seq<Entry>)
    requires Converted(mode, history).Ok?
    ensures FlatMap(WithCalls, Converted(mode, history).value) == FlatMap((e: Entry) => OfCalls(mode, e), history)
  {
    SeenAs(WithCalls, CallTurn, Turns(mode, None, history));
    CallTurnsAgree(mode, history);
  }

  lemma CallTurnsAgree(mode: ReplayMode, history: seq<Entry>)
    ensures FlatMap(CallTurn, Turns(mode, None, history)) == FlatMap((e: Entry) => OfCalls(mode, e), history)
  {
    var g := (e: Entry) => OfCalls(mode, e);
    forall e
      ensures FlatMap(CallTurn, OwnTurns(mode, e)) == g(e)
    {
      CallTurnsOf(mode, e);
    }
    Projects(CallTurn, g, mode, None, history);
  }

  // ---------------------------------------------------------------- speech without calls

  function WithoutCalls(w: Wire): seq<Wire> {
    if w.AssistantMsg? && w.calls == [] then [w] else []
  }

  function SpokenTurn(t: Turn): seq<Wire> {
    WithoutCalls(Render(t))
  }

  function PlainTurn(t: Turn): seq<Wire> {
    if t.Deferred? then [] else WithoutCalls(Render(t))
  }

  function LateTurn(t: Turn): seq<Wire> {
    if t.Deferred? then WithoutCalls(Render(t)) else []
  }

  lemma StringTurn(mode: ReplayMode, e: Entry)
    requires e.AssistantString?
    ensures FlatMap(PlainTurn, OwnTurns(mode, e)) == OfSpeech(mode, e)
  {
    assert OwnTurns(mode, e) == [OwnTurns(mode, e)[0]];
    FlatMapOne(PlainTurn, OwnTurns(mode, e)[0]);
    QuotedContent(mode, e.text, Clean(e.reasoning));
    FieldIs(mode, e.reasoning, []);
    var own := Clean(e.reasoning);
    if mode == ThinkTags && own.Some? {
      var thought := "<think>\n" + own.value + "\n</think>";
      assert [thought] + [] == [thought];
      assert [thought, e.text][1..] == [e.text];
      assert [thought] + [e.text] == [thought, e.text];
    }
  }

  lemma PlainTurnsOf(mode: ReplayMode, e: Entry)
    ensures FlatMap(PlainTurn, OwnTurns(mode, e)) == OfSpeech(mode, e)
  {
    match e
    case AssistantBlocks(_, _) =>
      AssistantTurn(mode, e);
      assert OwnTurns(mode, e) == [OwnTurns(mode, e)[0]];
      FlatMapOne(PlainTurn, OwnTurns(mode, e)[0]);
    case AssistantString(_, _) => StringTurn(mode, e);
    case UserBlocks(blocks) =>
      ReplayHasNoAssistant([], blocks);
      FlatMapNone(PlainTurn, OwnTurns(mode, e));
    case UserString(text) =>
      assert OwnTurns(mode, e) == [Asked([text])];
      FlatMapOne(PlainTurn, Asked([text]));
  }

  lemma {:induction false} LateTurnsAreDeferred(turns: seq<Turn>)
    ensures FlatMap(LateTurn, turns) == FlatMap(LateTurn, AllDeferred(turns))
  {
    if turns != [] {
      LateTurnsAreDeferred(turns[1..]);
      FlatMapAppend(LateTurn, DeferredOf(turns[0]), AllDeferred(turns[1..]));
      if turns[0].Deferred? {
        FlatMapOne(LateTurn, turns[0]);
      }
    }
  }

  lemma {:induction false} LateTimesWire(n: nat, g: Turn)
    requires g.Deferred?
    ensures FlatMap(LateTurn, Times(n, g)) == Times(n, Render(g))
  {
    if n > 0 {
      LateTimesWire(n - 1, g);
      assert Times(n, g)[1..] == Times(n - 1, g);
    }
  }

  lemma GroupIsLater(mode: ReplayMode, e: Entry)
    ensures var p := NewPending(e);
            && (p.Some? <==> OfLater(mode, e) != [])
            && (p.Some? ==> [Render(Group(mode, p.value))] == OfLater(mode, e) && p.value.remaining == Ids(e))
  {
    if e.AssistantBlocks? {
      CutAtFirstToolUse(e.blocks);
      LaterIsRendered(mode, e.reasoning, Behind(e.blocks));
    }
  }

  lemma LaterIsRendered(mode: ReplayMode, own: Option<string>, later: seq<Block>)
    ensures Render(Deferred(Parts(mode, later), Reasoning(mode, Clean(own), later)))
            == AssistantMsg(NotEmpty(Speech(mode, later)), [], ReasoningField(mode, own, later))
  {
    FieldIs(mode, own, later);
    SpeechIsContent(mode, later);
  }

  lemma {:induction false} GroupsAreLater(mode: ReplayMode, history: seq<Entry>)
    ensures FlatMap(LateTurn, Groups(mode, history)) == AllLater(mode, history)
    decreases |history|
  {
    if history != [] {
      var p := NewPending(history[0]);
      GroupsAreLater(mode, history[1..]);
      GroupIsLater(mode, history[0]);
      FlatMapAppend(LateTurn, CopiesOf(mode, p, history[1..]), Groups(mode, history[1..]));
      if p.Some? {
        LateTimesWire(Copies(p.value.remaining, history[1..]), Group(mode, p.value));
      }
    }
  }

  /** On the wire the messages of the assistant without tool calls are those that the history says at
      once, and the deferred ones, each as often as the results behind it say. */
  lemma SpeechIsGiven(mode: ReplayMode, history: seq<Entry>)
    requires Converted(mode, history).Ok?
    ensures multiset(FlatMap(WithoutCalls, Converted(mode, history).value))
            == multiset(FlatMap((e: Entry) => OfSpeech(mode, e), history)) + multiset(AllLater(mode, history))
  {
    var turns := Turns(mode, None, history);
    SeenAs(WithoutCalls, SpokenTurn, turns);
    SplitInTwo(PlainTurn, LateTurn, SpokenTurn, turns);
    PlainTurnsAgree(mode, history);
    LateTurnsAreDeferred(turns);
    GroupsAppear(mode, None, history);
    assert [] + Groups(mode, history) == Groups(mode, history);
    GroupsAreLater(mode, history);
  }

  lemma PlainTurnsAgree(mode: ReplayMode, history: seq<Entry>)
    ensures FlatMap(PlainTurn, Turns(mode, None, history)) == FlatMap((e: Entry) => OfSpeech(mode, e), history)
  {
    var g := (e: Entry) => OfSpeech(mode, e);
    forall e
      ensures FlatMap(PlainTurn, OwnTurns(mode, e)) == g(e)
    {
      PlainTurnsOf(mode, e);
    }
    Projects(PlainTurn, g, mode, None, history);
  }

  // ---------------------------------------------------------------- refusals

  /** The error that a block raises in a message of an assistant or a user. */
  function Raises(e: Entry, b: Block): Option<Error> {
    match b
    case ImageB => if e.AssistantBlocks? then Some(AssistantImage) else Some(UserImage)
    case ServerToolB(kind) => if e.AssistantBlocks? then Some(ServerBlock(kind)) else None
    case _ => None
  }

  function BlocksOf(e: Entry): seq<Block> {
    match e
    case AssistantBlocks(blocks, _) => blocks
    case UserBlocks(blocks) => blocks
    case _ => []
  }

  /** The message raises an error at this block, and at none in front of it. */
  predicate RaisedAt(e: Entry, n: nat, error: Error) {
    && n < |BlocksOf(e)| && Raises(e, BlocksOf(e)[n]) == Some(error)
    && forall k :: 0 <= k < n ==> Raises(e, BlocksOf(e)[k]).None?
  }

  predicate RaisesNone(e: Entry) {
    forall b :: b in BlocksOf(e) ==> Raises(e, b).None?
  }

  lemma {:induction false} EntryRaises(e: Entry)
    ensures match EntryRefusal(e)
            case None => RaisesNone(e)
            case Some(error) => exists n: nat :: RaisedAt(e, n, error)
    decreases |BlocksOf(e)|
  {
    var blocks := BlocksOf(e);
    if blocks != [] {
      if Raises(e, blocks[0]).Some? {
        assert RaisedAt(e, 0, Raises(e, blocks[0]).value);
      } else {
        var rest := if e.AssistantBlocks? then AssistantBlocks(blocks[1..], None) else UserBlocks(blocks[1..]);
        EntryRaises(rest);
        assert blocks == [blocks[0]] + blocks[1..];
        if EntryRefusal(rest).Some? {
          var error := EntryRefusal(rest).value;
          var n: nat :| RaisedAt(rest, n, error);
          RaisedBehind(e, rest, n, error);
        }
      }
    }
  }

  lemma RaisedBehind(e: Entry, rest: Entry, n: nat, error: Error)
    requires BlocksOf(e) != [] && BlocksOf(rest) == BlocksOf(e)[1..] && e.AssistantBlocks? == rest.AssistantBlocks?
    requires Raises(e, BlocksOf(e)[0]).None? && RaisedAt(rest, n, error)
    ensures RaisedAt(e, n + 1, error)
  {
    forall k | 0 <= k < n + 1
      ensures Raises(e, BlocksOf(e)[k]).None?
    {
      if k > 0 {
        assert BlocksOf(e)[k] == BlocksOf(rest)[k - 1];
      }
    }
  }

  /** The history is refused at this message. */
  ghost predicate RefusedAt(history: seq<Entry>, k: nat, error: Error) {
    && k < |history| && (exists n: nat :: RaisedAt(history[k], n, error))
    && forall j :: 0 <= j < k ==> RaisesNone(history[j])
  }

  lemma {:induction false} RefusedFirst(history: seq<Entry>) returns (k: nat)
    requires Refusal(history).Some?
    ensures RefusedAt(history, k, Refusal(history).value)
  {
    EntryRaises(history[0]);
    if EntryRefusal(history[0]).Some? {
      k := 0;
    } else {
      var m := RefusedFirst(history[1..]);
      k := m + 1;
      forall j | 0 <= j < k
        ensures RaisesNone(history[j])
      {
        if j > 0 {
          assert history[j] == history[1..][j - 1];
        }
      }
    }
  }

  lemma {:induction false} NothingRefused(history: seq<Entry>)
    requires Refusal(history).None?
    ensures forall e :: e in history ==> RaisesNone(e)
  {
    if history != [] {
      EntryRaises(history[0]);
      NothingRefused(history[1..]);
      assert history == [history[0]] + history[1..];
    }
  }

  /** A history is refused exactly if some block in it raises an error, and with the error of the
      first such block. */
  lemma RefusedExactly(mode: ReplayMode, history: seq<Entry>) returns (k: nat)
    ensures Converted(mode, history).Ok? <==> forall e :: e in history ==> RaisesNone(e)
    ensures Converted(mode, history).Err? ==> RefusedAt(history, k, Converted(mode, history).error)
  {
    k := 0;
    if Refusal(history).None? {
      NothingRefused(history);
    } else {
      k := RefusedFirst(history);
      var n: nat :| RaisedAt(history[k], n, Refusal(history).value);
      assert BlocksOf(history[k])[n] in BlocksOf(history[k]);
      assert history[k] in history && !RaisesNone(history[k]);
    }
  }
}
