/** Replay of an Anthropic history as OpenAI chat messages (core/anthropic/conversion.py): what
    an assistant says behind its tool calls is deferred until their results were replayed. */
module History {
  import opened Text

  // ---------------------------------------------------------------- the two histories

  datatype ReplayMode = Disabled | ThinkTags | ReasoningContent

  /** A tool call with its arguments and further fields as they are written out. */
  datatype ToolCall = ToolCall(id: Option<string>, name: string, arguments: string, extra: Option<string>)

  datatype Block =
    | TextB(text: string)
    | ThinkingB(thinking: string)
    | RedactedB
    | ToolUseB(call: ToolCall)
    | ToolResultB(id: Option<string>, content: string)
    | ImageB
    | ServerToolB(kind: string)
    | OtherB

  datatype Entry =
    | AssistantBlocks(blocks: seq<Block>, reasoning: Option<string>)
    | AssistantString(text: string, reasoning: Option<string>)
    | UserBlocks(blocks: seq<Block>)
    | UserString(text: string)

  /** A chat message; one without calls has no field for them. */
  datatype Wire =
    | AssistantMsg(content: string, calls: seq<ToolCall>, reasoning: Option<string>)
    | UserMsg(content: string)
    | ToolMsg(id: Option<string>, content: string)

  datatype Error = AssistantImage | ServerBlock(kind: string) | UserImage

  datatype Result<+T> = Ok(value: T) | Err(error: Error)

  // ---------------------------------------------------------------- turns

  datatype Part = Plain(text: string) | Thought(thinking: string)

  /** A chat message whose content is still in parts. */
  datatype Turn =
    | Said(parts: seq<Part>, calls: seq<ToolCall>, reasoning: Option<string>)
    | Deferred(parts: seq<Part>, reasoning: Option<string>)
    | Quoted(parts: seq<Part>, reasoning: Option<string>)
    | Asked(texts: seq<string>)
    | Replayed(id: Option<string>, content: string)

  function PartText(p: Part): string {
    match p
    case Plain(text) => text
    case Thought(thinking) => "<think>\n" + thinking + "\n</think>"
  }

  function PartTexts(parts: seq<Part>): seq<string> {
    if parts == [] then [] else [PartText(parts[0])] + PartTexts(parts[1..])
  }

  function Content(parts: seq<Part>): string {
    Join("\n\n", PartTexts(parts))
  }

  /** Content that must not be empty. */
  function Padded(content: string): string {
    if content == "" then " " else content
  }

  function Render(t: Turn): Wire {
    match t
    case Said(parts, calls, reasoning) =>
      var content := Padded(Content(parts));
      AssistantMsg(if calls != [] && content == " " then "" else content, calls, reasoning)
    case Deferred(parts, reasoning) => AssistantMsg(Padded(Content(parts)), [], reasoning)
    case Quoted(parts, reasoning) => AssistantMsg(Content(parts), [], reasoning)
    case Asked(texts) => UserMsg(Join("\n", texts))
    case Replayed(id, content) => ToolMsg(id, content)
  }

  function RenderAll(turns: seq<Turn>): seq<Wire> {
    FlatMap((t: Turn) => [Render(t)], turns)
  }

  // ---------------------------------------------------------------- assistant blocks

  function Clean(reasoning: Option<string>): Option<string> {
    if reasoning == Some("") then None else reasoning
  }

  function PartsOf(mode: ReplayMode, b: Block): seq<Part> {
    match b
    case TextB(text) => [Plain(text)]
    case ThinkingB(thinking) => if mode == ThinkTags then [Thought(thinking)] else []
    case _ => []
  }

  function Parts(mode: ReplayMode, blocks: seq<Block>): seq<Part> {
    FlatMap((b: Block) => PartsOf(mode, b), blocks)
  }

  function ThoughtOf(b: Block): seq<string> {
    if b.ThinkingB? then [b.thinking] else []
  }

  /** The separate reasoning field: the message's own, or else the thoughts among the blocks. */
  function Reasoning(mode: ReplayMode, own: Option<string>, blocks: seq<Block>): Option<string> {
    if mode != ReasoningContent then None
    else if own.Some? then own
    else Clean(Some(Join("\n", FlatMap(ThoughtOf, blocks))))
  }

  function CallOf(b: Block): seq<ToolCall> {
    if b.ToolUseB? then [b.call] else []
  }

  function Calls(blocks: seq<Block>): seq<ToolCall> {
    FlatMap(CallOf, blocks)
  }

  /** The blocks in front of the first tool use. */
  function Before(blocks: seq<Block>): seq<Block> {
    if blocks == [] || blocks[0].ToolUseB? then [] else [blocks[0]] + Before(blocks[1..])
  }

  function UnlessToolUse(b: Block): seq<Block> {
    if b.ToolUseB? then [] else [b]
  }

  /** The other blocks behind the first tool use. */
  function Behind(blocks: seq<Block>): seq<Block> {
    if blocks == [] then []
    else if blocks[0].ToolUseB? then FlatMap(UnlessToolUse, blocks[1..])
    else Behind(blocks[1..])
  }

  /** The ids whose results are awaited. */
  function Awaited(calls: seq<ToolCall>): set<string> {
    if calls == [] then {}
    else (if calls[0].id.Some? && !IsBlank(calls[0].id.value) then {calls[0].id.value} else {}) + Awaited(calls[1..])
  }

  // ---------------------------------------------------------------- the conversion

  datatype Pending = Pending(remaining: set<string>, blocks: seq<Block>, reasoning: Option<string>)

  function Group(mode: ReplayMode, p: Pending): Turn {
    Deferred(Parts(mode, p.blocks), Reasoning(mode, p.reasoning, p.blocks))
  }

  function Flushed(mode: ReplayMode, p: Option<Pending>): seq<Turn> {
    if p.Some? then [Group(mode, p.value)] else []
  }

  function FlushTexts(texts: seq<string>): seq<Turn> {
    if texts == [] then [] else [Asked(texts)]
  }

  function Answer(remaining: set<string>, id: Option<string>): set<string> {
    remaining - {id.GetOr("")}
  }

  /** The blocks of a user, with a group behind each result that finds nothing awaited. */
  function Replay(group: seq<Turn>, remaining: set<string>, texts: seq<string>, blocks: seq<Block>): seq<Turn>
    decreases |blocks|
  {
    if blocks == [] then FlushTexts(texts)
    else
      match blocks[0]
      case TextB(text) => Replay(group, remaining, texts + [text], blocks[1..])
      case ToolResultB(id, content) =>
        var left := Answer(remaining, id);
        FlushTexts(texts) + [Replayed(id, content)] + (if left == {} then group else [])
        + Replay(group, left, [], blocks[1..])
      case _ => Replay(group, remaining, texts, blocks[1..])
  }

  function Remaining(remaining: set<string>, blocks: seq<Block>): set<string>
    decreases |blocks|
  {
    if blocks == [] then remaining
    else if blocks[0].ToolResultB? then Remaining(Answer(remaining, blocks[0].id), blocks[1..])
    else Remaining(remaining, blocks[1..])
  }

  /** What a message leaves to be deferred. */
  function NewPending(e: Entry): Option<Pending> {
    if e.AssistantBlocks? && Behind(e.blocks) != []
    then Some(Pending(Awaited(Calls(e.blocks)), Behind(e.blocks), Clean(e.reasoning))) else None
  }

  function QuotedParts(mode: ReplayMode, text: string, reasoning: Option<string>): seq<Part> {
    if mode == ThinkTags && reasoning.Some?
    then [Thought(reasoning.value)] + (if text == "" then [] else [Plain(text)])
    else [Plain(text)]
  }

  /** One message, with the group that is pending in front of it: the turns and what is pending
      behind it. */
  function Step(mode: ReplayMode, p: Option<Pending>, e: Entry): (seq<Turn>, Option<Pending>) {
    match e
    case AssistantBlocks(blocks, reasoning) =>
      var pre := Before(blocks);
      (Flushed(mode, p) + [Said(Parts(mode, pre), Calls(blocks), Reasoning(mode, Clean(reasoning), pre))],
       NewPending(e))
    case AssistantString(text, reasoning) =>
      var own := Clean(reasoning);
      ([Quoted(QuotedParts(mode, text, own), if mode == ReasoningContent then own else None)], p)
    case UserString(text) => (Flushed(mode, p) + [Asked([text])], None)
    case UserBlocks(blocks) =>
      if p.None? then (Replay([], {}, [], blocks), None)
      else if p.value.remaining == {} then (Flushed(mode, p) + Replay([], {}, [], blocks), None)
      else
        var left := Remaining(p.value.remaining, blocks);
        (Replay(Flushed(mode, p), p.value.remaining, [], blocks),
         if left == {} then None else Some(p.value.(remaining := left)))
  }

  function Turns(mode: ReplayMode, p: Option<Pending>, history: seq<Entry>): seq<Turn>
    decreases |history|
  {
    if history == [] then Flushed(mode, p)
    else Step(mode, p, history[0]).0 + Turns(mode, Step(mode, p, history[0]).1, history[1..])
  }

  // ---------------------------------------------------------------- refusals

  function AssistantRefusal(blocks: seq<Block>): Option<Error> {
    if blocks == [] then None
    else if blocks[0].ImageB? then Some(AssistantImage)
    else if blocks[0].ServerToolB? then Some(ServerBlock(blocks[0].kind))
    else AssistantRefusal(blocks[1..])
  }

  function UserRefusal(blocks: seq<Block>): Option<Error> {
    if blocks == [] then None
    else if blocks[0].ImageB? then Some(UserImage)
    else UserRefusal(blocks[1..])
  }

  function EntryRefusal(e: Entry): Option<Error> {
    match e
    case AssistantBlocks(blocks, _) => AssistantRefusal(blocks)
    case UserBlocks(blocks) => UserRefusal(blocks)
    case _ => None
  }

  function Refusal(history: seq<Entry>): Option<Error> {
    if history == [] then None
    else if EntryRefusal(history[0]).Some? then EntryRefusal(history[0])
    else Refusal(history[1..])
  }

  function Converted(mode: ReplayMode, history: seq<Entry>): Result<seq<Wire>> {
    match Refusal(history)
    case Some(error) => Err(error)
    case None => Ok(RenderAll(Turns(mode, None, history)))
  }

  // ---------------------------------------------------------------- order is kept

  datatype Atom =
    | Spoken(part: Part)
    | Called(call: ToolCall)
    | Question(text: string)
    | Answered(id: Option<string>, content: string)

  function SpokenAtom(p: Part): seq<Atom> { [Spoken(p)] }
  function CalledAtom(c: ToolCall): seq<Atom> { [Called(c)] }
  function QuestionAtom(text: string): seq<Atom> { [Question(text)] }

  /** What a turn says that was not deferred. */
  function AtomsOut(t: Turn): seq<Atom> {
    match t
    case Said(parts, calls, _) => FlatMap(SpokenAtom, parts) + FlatMap(CalledAtom, calls)
    case Deferred(_, _) => []
    case Quoted(parts, _) => FlatMap(SpokenAtom, parts)
    case Asked(texts) => FlatMap(QuestionAtom, texts)
    case Replayed(id, content) => [Answered(id, content)]
  }

  function UserAtom(b: Block): seq<Atom> {
    match b
    case TextB(text) => [Question(text)]
    case ToolResultB(id, content) => [Answered(id, content)]
    case _ => []
  }

  /** What a message says, its tool calls together behind the blocks in front of the first. */
  function AtomsIn(mode: ReplayMode, e: Entry): seq<Atom> {
    match e
    case AssistantBlocks(blocks, _) =>
      FlatMap(SpokenAtom, Parts(mode, Before(blocks))) + FlatMap(CalledAtom, Calls(blocks))
    case AssistantString(text, reasoning) => FlatMap(SpokenAtom, QuotedParts(mode, text, Clean(reasoning)))
    case UserBlocks(blocks) => FlatMap(UserAtom, blocks)
    case UserString(text) => [Question(text)]
  }

  function AllAtomsOut(turns: seq<Turn>): seq<Atom> {
    FlatMap(AtomsOut, turns)
  }

  function AllAtomsIn(mode: ReplayMode, history: seq<Entry>): seq<Atom> {
    FlatMap((e: Entry) => AtomsIn(mode, e), history)
  }

  lemma AtomsAppend(a: seq<Turn>, b: seq<Turn>)
    ensures AllAtomsOut(a + b) == AllAtomsOut(a) + AllAtomsOut(b)
  {
    FlatMapAppend(AtomsOut, a, b);
  }

  lemma FlushAtoms(texts: seq<string>)
    ensures AllAtomsOut(FlushTexts(texts)) == FlatMap(QuestionAtom, texts)
  {
    if texts != [] {
      FlatMapOne(AtomsOut, Asked(texts));
    }
  }

  /** A group says nothing but what was deferred. */
  predicate OnlyDeferred(group: seq<Turn>) {
    AllAtomsOut(group) == []
  }

  lemma FlushedIsDeferred(mode: ReplayMode, p: Option<Pending>)
    ensures OnlyDeferred(Flushed(mode, p))
  {
    if p.Some? {
      FlatMapOne(AtomsOut, Group(mode, p.value));
    }
  }

  lemma ResultAtoms(group: seq<Turn>, texts: seq<string>, id: Option<string>, content: string, rest: seq<Turn>)
    requires OnlyDeferred(group)
    ensures AllAtomsOut(FlushTexts(texts) + [Replayed(id, content)] + group + rest)
            == FlatMap(QuestionAtom, texts) + ([Answered(id, content)] + AllAtomsOut(rest))
  {
    var a, r := FlushTexts(texts), Replayed(id, content);
    FlushAtoms(texts);
    AtomsAppend(a, [r]);
    AtomsAppend(a + [r], group);
    AtomsAppend(a + [r] + group, rest);
    FlatMapOne(AtomsOut, r);
    ConcatAssoc(FlatMap(QuestionAtom, texts), [Answered(id, content)], AllAtomsOut(rest));
  }

  lemma TextAtoms(texts: seq<string>, text: string, rest: seq<Atom>)
    ensures FlatMap(QuestionAtom, texts + [text]) + rest == FlatMap(QuestionAtom, texts) + ([Question(text)] + rest)
  {
    FlatMapSnoc(QuestionAtom, texts, text);
    ConcatAssoc(FlatMap(QuestionAtom, texts), [Question(text)], rest);
  }

  lemma {:induction false} ReplayAtoms(group: seq<Turn>, remaining: set<string>, texts: seq<string>, blocks: seq<Block>)
    requires OnlyDeferred(group)
    ensures AllAtomsOut(Replay(group, remaining, texts, blocks))
            == FlatMap(QuestionAtom, texts) + FlatMap(UserAtom, blocks)
    decreases |blocks|
  {
    if blocks == [] {
      FlushAtoms(texts);
    } else {
      match blocks[0]
      case TextB(text) =>
        ReplayAtoms(group, remaining, texts + [text], blocks[1..]);
        TextAtoms(texts, text, FlatMap(UserAtom, blocks[1..]));
      case ToolResultB(id, content) =>
        var left := Answer(remaining, id);
        ReplayAtoms(group, left, [], blocks[1..]);
        ResultAtoms(if left == {} then group else [], texts, id, content, Replay(group, left, [], blocks[1..]));
      case _ => ReplayAtoms(group, remaining, texts, blocks[1..]);
    }
  }

  lemma StepAtoms(mode: ReplayMode, p: Option<Pending>, e: Entry)
    ensures AllAtomsOut(Step(mode, p, e).0) == AtomsIn(mode, e)
  {
    FlushedIsDeferred(mode, p);
    match e
    case AssistantBlocks(_, _) => StepSnocAtoms(mode, p, e);
    case AssistantString(_, _) => FlatMapOne(AtomsOut, Step(mode, p, e).0[0]);
    case UserString(text) =>
      StepSnocAtoms(mode, p, e);
      FlatMapOne(QuestionAtom, text);
    case UserBlocks(blocks) =>
      if p.Some? && p.value.remaining != {} {
        ReplayAtoms(Flushed(mode, p), p.value.remaining, [], blocks);
      } else {
        ReplayAtoms([], {}, [], blocks);
        AtomsAppend(Flushed(mode, p), Replay([], {}, [], blocks));
      }
  }

  lemma StepSnocAtoms(mode: ReplayMode, p: Option<Pending>, e: Entry)
    requires e.AssistantBlocks? || e.UserString?
    ensures var turns := Step(mode, p, e).0;
            turns != [] && AllAtomsOut(turns) == AtomsOut(turns[|turns| - 1])
  {
    var turns := Step(mode, p, e).0;
    FlushedIsDeferred(mode, p);
    assert turns == Flushed(mode, p) + [turns[|turns| - 1]];
    AtomsAppend(Flushed(mode, p), [turns[|turns| - 1]]);
    FlatMapOne(AtomsOut, turns[|turns| - 1]);
  }

  /** Apart from what is deferred, all text, tool calls and tool results of a history come out
      once and in their order, whatever is missing, doubled or misplaced in it. */
  lemma {:induction false} OrderIsKept(mode: ReplayMode, p: Option<Pending>, history: seq<Entry>)
    ensures AllAtomsOut(Turns(mode, p, history)) == AllAtomsIn(mode, history)
    decreases |history|
  {
    if history == [] {
      FlushedIsDeferred(mode, p);
    } else {
      var (turns, p') := Step(mode, p, history[0]);
      StepAtoms(mode, p, history[0]);
      OrderIsKept(mode, p', history[1..]);
      AtomsAppend(turns, Turns(mode, p', history[1..]));
    }
  }

  // ---------------------------------------------------------------- how often a group appears

  function ResultCount(blocks: seq<Block>): nat {
    if blocks == [] then 0 else (if blocks[0].ToolResultB? then 1 else 0) + ResultCount(blocks[1..])
  }

  /** How many results stand behind the one that answers the last awaited id. */
  function Extras(remaining: set<string>, blocks: seq<Block>): nat
    decreases |blocks|
  {
    if blocks == [] then 0
    else if !blocks[0].ToolResultB? then Extras(remaining, blocks[1..])
    else
      var left := Answer(remaining, blocks[0].id);
      if left == {} then ResultCount(blocks[1..]) else Extras(left, blocks[1..])
  }

  /** How often a group that awaits ids is emitted, from the messages behind it alone. */
  function Copies(remaining: set<string>, rest: seq<Entry>): nat
    decreases |rest|
  {
    if rest == [] then 1
    else
      match rest[0]
      case AssistantString(_, _) => Copies(remaining, rest[1..])
      case UserBlocks(blocks) =>
        if remaining == {} then 1
        else if Remaining(remaining, blocks) == {} then 1 + Extras(remaining, blocks)
        else Copies(Remaining(remaining, blocks), rest[1..])
      case _ => 1
  }

  function Times<T>(n: nat, x: T): seq<T> {
    if n == 0 then [] else [x] + Times(n - 1, x)
  }

  function DeferredOf(t: Turn): seq<Turn> {
    if t.Deferred? then [t] else []
  }

  function AllDeferred(turns: seq<Turn>): seq<Turn> {
    FlatMap(DeferredOf, turns)
  }

  /** The groups of a history in order, each as often as it is to be emitted. */
  function Groups(mode: ReplayMode, history: seq<Entry>): seq<Turn>
    decreases |history|
  {
    if history == [] then []
    else
      var p := NewPending(history[0]);
      (if p.Some? then Times(Copies(p.value.remaining, history[1..]), Group(mode, p.value)) else [])
      + Groups(mode, history[1..])
  }

  lemma DeferredAppend(a: seq<Turn>, b: seq<Turn>)
    ensures AllDeferred(a + b) == AllDeferred(a) + AllDeferred(b)
  {
    FlatMapAppend(DeferredOf, a, b);
  }

  lemma FlushNotDeferred(texts: seq<string>)
    ensures AllDeferred(FlushTexts(texts)) == []
  {
    if texts != [] {
      FlatMapOne(DeferredOf, Asked(texts));
    }
  }

  lemma FlushedOnce(mode: ReplayMode, p: Option<Pending>)
    ensures AllDeferred(Flushed(mode, p)) == Flushed(mode, p)
  {
    if p.Some? {
      FlatMapOne(DeferredOf, Group(mode, p.value));
    }
  }

  lemma ResultDeferred(group: seq<Turn>, texts: seq<string>, r: Turn, rest: seq<Turn>)
    requires r.Replayed?
    ensures AllDeferred(FlushTexts(texts) + [r] + group + rest) == AllDeferred(group) + AllDeferred(rest)
  {
    var a := FlushTexts(texts);
    FlushNotDeferred(texts);
    DeferredAppend(a, [r]);
    DeferredAppend(a + [r], group);
    DeferredAppend(a + [r] + group, rest);
    FlatMapOne(DeferredOf, r);
    assert [] + AllDeferred(group) == AllDeferred(group);
  }

  /** Emissions within one message. */
  function Emissions(remaining: set<string>, blocks: seq<Block>): nat
  {
    if Remaining(remaining, blocks) == {} then 1 + Extras(remaining, blocks) else 0
  }

  lemma {:induction false} NothingRemains(blocks: seq<Block>)
    ensures Remaining({}, blocks) == {}
    decreases |blocks|
  {
    if blocks != [] {
      if blocks[0].ToolResultB? {
        assert Answer({}, blocks[0].id) == {};
      }
      NothingRemains(blocks[1..]);
    }
  }

  lemma {:induction false} ReplayWithoutGroup(texts: seq<string>, remaining: set<string>, blocks: seq<Block>)
    ensures AllDeferred(Replay([], remaining, texts, blocks)) == []
    decreases |blocks|
  {
    if blocks == [] {
      FlushNotDeferred(texts);
    } else {
      match blocks[0]
      case TextB(text) => ReplayWithoutGroup(texts + [text], remaining, blocks[1..]);
      case ToolResultB(id, content) =>
        var left := Answer(remaining, id);
        ReplayWithoutGroup([], left, blocks[1..]);
        ResultDeferred([], texts, Replayed(id, content), Replay([], left, [], blocks[1..]));
      case _ => ReplayWithoutGroup(texts, remaining, blocks[1..]);
    }
  }

  /** Behind the last awaited result each further result repeats the group. */
  lemma {:induction false} ReplayDoneGroup(g: Turn, texts: seq<string>, blocks: seq<Block>)
    requires g.Deferred?
    ensures AllDeferred(Replay([g], {}, texts, blocks)) == Times(ResultCount(blocks), g)
    decreases |blocks|
  {
    if blocks == [] {
      FlushNotDeferred(texts);
    } else {
      match blocks[0]
      case TextB(text) => ReplayDoneGroup(g, texts + [text], blocks[1..]);
      case ToolResultB(id, content) =>
        assert Answer({}, id) == {};
        ReplayDoneGroup(g, [], blocks[1..]);
        FlatMapOne(DeferredOf, g);
        ResultDeferred([g], texts, Replayed(id, content), Replay([g], {}, [], blocks[1..]));
      case _ => ReplayDoneGroup(g, texts, blocks[1..]);
    }
  }

  lemma {:induction false} ReplayGroup(g: Turn, remaining: set<string>, texts: seq<string>, blocks: seq<Block>)
    requires g.Deferred? && remaining != {}
    ensures AllDeferred(Replay([g], remaining, texts, blocks)) == Times(Emissions(remaining, blocks), g)
    decreases |blocks|
  {
    if blocks == [] {
      FlushNotDeferred(texts);
    } else {
      match blocks[0]
      case TextB(text) => ReplayGroup(g, remaining, texts + [text], blocks[1..]);
      case ToolResultB(id, content) =>
        var left := Answer(remaining, id);
        var rest := Replay([g], left, [], blocks[1..]);
        FlatMapOne(DeferredOf, g);
        if left == {} {
          NothingRemains(blocks[1..]);
          ReplayDoneGroup(g, [], blocks[1..]);
          ResultDeferred([g], texts, Replayed(id, content), rest);
        } else {
          ReplayGroup(g, left, [], blocks[1..]);
          ResultDeferred([], texts, Replayed(id, content), rest);
        }
      case _ => ReplayGroup(g, remaining, texts, blocks[1..]);
    }
  }

  /** The copies of a pending group that a message emits, and those still to come. */
  function CopiesOf(mode: ReplayMode, p: Option<Pending>, rest: seq<Entry>): seq<Turn> {
    if p.Some? then Times(Copies(p.value.remaining, rest), Group(mode, p.value)) else []
  }

  lemma AssistantDeferred(mode: ReplayMode, p: Option<Pending>, e: Entry)
    requires e.AssistantBlocks? || e.UserString?
    ensures AllDeferred(Step(mode, p, e).0) == Flushed(mode, p)
  {
    var turns := Step(mode, p, e).0;
    var last := turns[|turns| - 1];
    assert turns == Flushed(mode, p) + [last];
    FlushedOnce(mode, p);
    FlatMapOne(DeferredOf, last);
    DeferredAppend(Flushed(mode, p), [last]);
  }

  lemma TimesOne<T>(x: T)
    ensures Times(1, x) == [x]
  {
    assert Times(1, x) == [x] + Times(0, x);
  }

  lemma StepDeferred(mode: ReplayMode, p: Option<Pending>, e: Entry, rest: seq<Entry>)
    ensures CopiesOf(mode, p, [e] + rest) + CopiesOf(mode, NewPending(e), rest)
            == AllDeferred(Step(mode, p, e).0) + CopiesOf(mode, Step(mode, p, e).1, rest)
  {
    assert ([e] + rest)[1..] == rest;
    if p.Some? {
      TimesOne(Group(mode, p.value));
    }
    match e
    case AssistantBlocks(_, _) => AssistantDeferred(mode, p, e);
    case AssistantString(_, _) => FlatMapOne(DeferredOf, Step(mode, p, e).0[0]);
    case UserString(_) => AssistantDeferred(mode, p, e);
    case UserBlocks(blocks) =>
      if p.Some? && p.value.remaining != {} {
        ReplayGroup(Group(mode, p.value), p.value.remaining, [], blocks);
      } else {
        ReplayWithoutGroup([], {}, blocks);
        FlushedOnce(mode, p);
        DeferredAppend(Flushed(mode, p), Replay([], {}, [], blocks));
      }
  }

  /** Each group comes out once for the first time its awaited results are complete, or for the
      first message that gives up on them, or at the end; and once more for every result
      behind the completing one in the same message. */
  lemma {:induction false} GroupsAppear(mode: ReplayMode, p: Option<Pending>, history: seq<Entry>)
    ensures AllDeferred(Turns(mode, p, history)) == CopiesOf(mode, p, history) + Groups(mode, history)
    decreases |history|
  {
    if history == [] {
      FlushedOnce(mode, p);
      if p.Some? {
        TimesOne(Group(mode, p.value));
      }
    } else {
      var (turns, p') := Step(mode, p, history[0]);
      assert history == [history[0]] + history[1..];
      StepDeferred(mode, p, history[0], history[1..]);
      GroupsAppear(mode, p', history[1..]);
      DeferredAppend(turns, Turns(mode, p', history[1..]));
      ConcatAssoc(AllDeferred(turns), CopiesOf(mode, p', history[1..]), Groups(mode, history[1..]));
      ConcatAssoc(CopiesOf(mode, p, history), CopiesOf(mode, NewPending(history[0]), history[1..]),
                  Groups(mode, history[1..]));
    }
  }
}
