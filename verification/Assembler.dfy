/** Assembly of OpenAI Responses streams from Anthropic content blocks
    (core/openai_responses/stream_state.py). Nothing is assumed of the events that arrive. */
module Assembler {
  import opened Text
  import opened ToolNames

  /** What the assembler asks of the rest of the program: the tool behind an Anthropic name, a
      new call id for a slot, the normal form of function arguments (none where they are not a
      JSON object), the text of a custom tool's input, and an estimate of tokens. */
  datatype Env = Env(
    identity: string -> Identity,
    newCallId: nat -> string,
    parse: string -> Option<string>,
    customText: string -> string,
    tokens: string -> nat)

  datatype Status = InProgress | Completed

  datatype Item =
    | Message(status: Status, parts: seq<string>)
    | Reasoning(status: Status, text: string)
    | Encrypted(status: Status, data: string)
    | FunctionCall(status: Status, callId: string, name: string, namespace: Option<string>, arguments: string)
    | CustomCall(status: Status, callId: string, name: string, namespace: Option<string>, input: string)

  datatype Usage = Usage(input: int, output: int, total: int, reasoning: Option<int>)
  datatype Response = Response(output: seq<Item>, usage: Option<Usage>)

  // ---------------------------------------------------------------- what arrives

  /** The initial input of a tool block, as far as the assembler tells inputs apart. */
  datatype ToolInput = NoInput | EmptyInput | ObjectInput(json: string) | OtherInput(json: string)

  datatype StartBlock =
    | TextStart(text: string)
    | ThinkingStart(thinking: string)
    | RedactedStart(data: string)
    | ToolStart(id: string, name: string, input: ToolInput)
    | OtherStart

  datatype DeltaBody = TextPart(text: string) | ThinkingPart(thinking: string) | JsonPart(json: string) | OtherPart

  datatype Event =
    | BlockStart(index: Option<int>, block: StartBlock)
    | BlockDelta(index: Option<int>, delta: DeltaBody)
    | BlockStop(index: Option<int>)
    | MessageDelta(inputTokens: Option<int>, outputTokens: Option<int>)
    | MessageStop
    | ErrorEvent(message: string)
    | OtherEvent

  // ---------------------------------------------------------------- what is emitted

  datatype Out =
    | Created(response: Response)
    | ItemAdded(slot: nat, item: Item)
    | PartAdded(slot: nat)
    | TextDelta(slot: nat, text: string)
    | TextDone(slot: nat, text: string)
    | PartDone(slot: nat, text: string)
    | ReasoningDelta(slot: nat, text: string)
    | ReasoningDone(slot: nat, text: string)
    | ArgumentsDelta(slot: nat, text: string)
    | ArgumentsDone(slot: nat, text: string)
    | InputDelta(slot: nat, text: string)
    | InputDone(slot: nat, text: string)
    | ItemDone(slot: nat, item: Item)
    | ResponseCompleted(response: Response)
    | ResponseFailed(response: Response, error: string)

  const INVALID_ARGUMENTS :=
    "Upstream function_call arguments were not a valid JSON object; refusing to emit replay-unsafe Responses output."

  // ---------------------------------------------------------------- the state

  datatype Block =
    | TextBlock(index: int, slot: nat, parts: seq<string>)
    | ReasoningBlock(index: int, slot: nat, parts: seq<string>, encrypted: Option<string>)
    | ToolBlock(index: int, slot: nat, parts: seq<string>, callId: string, tool: Identity)

  /** `active` is the dictionary of active blocks in insertion order. */
  datatype State = State(
    slots: seq<Option<Item>>,
    active: seq<Block>,
    fallbackIndex: int,
    inputTokens: Option<int>,
    outputTokens: Option<int>,
    reasoningTokens: nat,
    started: bool,
    terminal: bool)

  const INIT := State([], [], -1, None, None, 0, false, false)

  function Joined(parts: seq<string>): string {
    Flatten(parts)
  }

  function SlotItem(slot: Option<Item>): seq<Item> {
    if slot.Some? then [slot.value] else []
  }

  function Output(slots: seq<Option<Item>>): seq<Item> {
    FlatMap(SlotItem, slots)
  }

  function UsageOf(s: State): Option<Usage> {
    if s.inputTokens.None? && s.outputTokens.None? then None
    else
      var i, o := s.inputTokens.GetOr(0), s.outputTokens.GetOr(0);
      var capped := if s.reasoningTokens <= o then s.reasoningTokens else o;
      Some(Usage(i, o, i + o, if capped != 0 then Some(capped) else None))
  }

  function Payload(s: State): Response {
    Response(Output(s.slots), UsageOf(s))
  }

  // ---------------------------------------------------------------- completing blocks

  function ReasoningItem(b: Block, status: Status): Item
    requires b.ReasoningBlock?
  {
    if b.encrypted.Some? then Encrypted(status, b.encrypted.value) else Reasoning(status, Joined(b.parts))
  }

  function ToolItem(b: Block, status: Status, body: string): Item
    requires b.ToolBlock?
  {
    var namespace := if b.tool.namespace == Some("") then None else b.tool.namespace;
    if b.tool.kind == CustomTool then CustomCall(status, b.callId, b.tool.name, namespace, body)
    else FunctionCall(status, b.callId, b.tool.name, namespace, body)
  }

  function Commit(s: State, slot: nat, item: Item): State {
    if slot < |s.slots| then s.(slots := s.slots[slot := Some(item)])
    else s.(slots := s.slots + seq(slot - |s.slots|, i => None) + [Some(item)])
  }

  function Fail(s: State, error: string): (State, seq<Out>) {
    (s.(terminal := true), [ResponseFailed(Payload(s), error)])
  }

  function NonEmpty(out: Out, text: string): seq<Out> {
    if text == "" then [] else [out]
  }

  /** A block that left the dictionary becomes a finished item, or the end of the stream. */
  function Complete(env: Env, s: State, b: Block): (State, seq<Out>) {
    match b
    case TextBlock(_, slot, parts) =>
      var text := Joined(parts);
      var item := Message(Completed, [text]);
      (Commit(s, slot, item), [TextDone(slot, text), PartDone(slot, text), ItemDone(slot, item)])
    case ReasoningBlock(_, slot, parts, _) =>
      var text := Joined(parts);
      var item := ReasoningItem(b, Completed);
      (Commit(s, slot, item).(reasoningTokens := s.reasoningTokens + if text == "" then 0 else env.tokens(text)),
       NonEmpty(ReasoningDone(slot, text), text) + [ItemDone(slot, item)])
    case ToolBlock(_, slot, parts, _, tool) =>
      if tool.kind == CustomTool then
        var body := env.customText(Joined(parts));
        var item := ToolItem(b, Completed, body);
        (Commit(s, slot, item),
         NonEmpty(InputDelta(slot, body), body) + [InputDone(slot, body), ItemDone(slot, item)])
      else
        var raw := if Joined(parts) == "" then "{}" else Joined(parts);
        match env.parse(raw)
        case None => Fail(s, INVALID_ARGUMENTS)
        case Some(body) =>
          var item := ToolItem(b, Completed, body);
          (Commit(s, slot, item),
           NonEmpty(ArgumentsDelta(slot, body), body) + [ArgumentsDone(slot, body), ItemDone(slot, item)])
  }

  /** The position of a block in the dictionary; its length if the index is not there. */
  function FindBlock(active: seq<Block>, index: int): (p: nat)
    ensures p <= |active|
    ensures p < |active| ==> active[p].index == index
  {
    if active == [] || active[0].index == index then 0 else 1 + FindBlock(active[1..], index)
  }

  function Without(active: seq<Block>, p: nat): seq<Block>
    requires p < |active|
  {
    active[..p] + active[p + 1..]
  }

  /** Taking a block out of the dictionary and completing it; nothing if it is not there. */
  function CompleteAt(env: Env, s: State, index: int): (State, seq<Out>) {
    var p := FindBlock(s.active, index);
    if p == |s.active| then (s, [])
    else Complete(env, s.(active := Without(s.active, p)), s.active[p])
  }

  /** Stable sorting by slot. */
  function Insert(b: Block, blocks: seq<Block>): seq<Block> {
    if blocks == [] || b.slot <= blocks[0].slot then [b] + blocks
    else [blocks[0]] + Insert(b, blocks[1..])
  }

  function SortedBySlot(blocks: seq<Block>): seq<Block> {
    if blocks == [] then [] else Insert(blocks[0], SortedBySlot(blocks[1..]))
  }

  function CompleteAll(env: Env, s: State, blocks: seq<Block>): (State, seq<Out>)
    decreases |blocks|
  {
    if blocks == [] || s.terminal then (s, [])
    else
      var (s1, out1) := Complete(env, s, blocks[0]);
      var (s2, out2) := CompleteAll(env, s1, blocks[1..]);
      (s2, out1 + out2)
  }

  function Flush(env: Env, s: State): (State, seq<Out>) {
    CompleteAll(env, s.(active := []), SortedBySlot(s.active))
  }

  function CompleteResponse(env: Env, s: State): (State, seq<Out>) {
    var (s1, out1) := Flush(env, s);
    if s1.terminal then (s1, out1)
    else (s1.(terminal := true), out1 + [ResponseCompleted(Payload(s1))])
  }

  function FailResponse(env: Env, s: State, message: string): (State, seq<Out>) {
    var (s1, out1) := Flush(env, s);
    if s1.terminal then (s1, out1)
    else
      var (s2, out2) := Fail(s1, message);
      (s2, out1 + out2)
  }

  // ---------------------------------------------------------------- starting blocks

  /** What is to be opened at an index. */
  datatype Opening =
    | OpenText(text: string)
    | OpenReasoning(encrypted: Option<string>, text: string)
    | OpenTool(id: string, name: string, input: ToolInput)

  function OneIfAny(text: string): seq<string> {
    if text == "" then [] else [text]
  }

  function InitialParts(kind: ToolKind, input: ToolInput): seq<string> {
    match input
    case ObjectInput(json) => [json]
    case OtherInput(json) => if kind == CustomTool then [json] else []
    case _ => []
  }

  function NewBlock(env: Env, index: int, slot: nat, o: Opening): Block {
    match o
    case OpenText(text) => TextBlock(index, slot, OneIfAny(text))
    case OpenReasoning(encrypted, text) => ReasoningBlock(index, slot, OneIfAny(text), encrypted)
    case OpenTool(id, name, input) =>
      var tool := env.identity(name);
      ToolBlock(index, slot, InitialParts(tool.kind, input), if id == "" then env.newCallId(slot) else id, tool)
  }

  /** The item of a block as it is announced. */
  function Announced(b: Block): Item {
    match b
    case TextBlock(_, _, _) => Message(InProgress, [])
    case ReasoningBlock(_, _, _, encrypted) =>
      if encrypted.Some? then Encrypted(InProgress, encrypted.value) else Reasoning(InProgress, "")
    case ToolBlock(_, _, _, _, _) => ToolItem(b, InProgress, "")
  }

  function OpeningOut(b: Block): seq<Out> {
    [ItemAdded(b.slot, Announced(b))]
    + match b
      case TextBlock(_, slot, parts) => [PartAdded(slot)] + NonEmpty(TextDelta(slot, Joined(parts)), Joined(parts))
      case ReasoningBlock(_, slot, parts, _) => NonEmpty(ReasoningDelta(slot, Joined(parts)), Joined(parts))
      case ToolBlock(_, _, _, _, _) => []
  }

  /** Opening a block at an index. A block that uses the index is completed first, which may
      end the stream; the new block takes the next slot and the end of the dictionary. */
  function OpenAt(env: Env, s: State, index: int, o: Opening): (State, seq<Out>) {
    var (s1, out1) := CompleteAt(env, s, index);
    if s1.terminal then (s1, out1)
    else
      var b := NewBlock(env, index, |s1.slots|, o);
      (s1.(slots := s1.slots + [None], active := s1.active + [b]), out1 + OpeningOut(b))
  }

  function SafeIndex(s: State, index: Option<int>): (int, State) {
    match index
    case Some(i) => (i, s)
    case None => (s.fallbackIndex, s.(fallbackIndex := s.fallbackIndex - 1))
  }

  lemma JoinedOne(text: string)
    ensures Joined(OneIfAny(text)) == text
  {
    if text != "" {
      FlatMapOne((part: string) => part, text);
    }
  }

  // ---------------------------------------------------------------- deltas

  function WithPart(b: Block, text: string): Block {
    b.(parts := b.parts + [text])
  }

  function Extend(s: State, p: nat, text: string): State
    requires p < |s.active|
  {
    s.(active := s.active[p := WithPart(s.active[p], text)])
  }

  /** Text for an active block, which passes it on at once unless it is a tool's. */
  function FirstText(b: Block, text: string): seq<Out> {
    match b
    case TextBlock(_, slot, _) => NonEmpty(TextDelta(slot, text), text)
    case ReasoningBlock(_, slot, _, _) => NonEmpty(ReasoningDelta(slot, text), text)
    case ToolBlock(_, _, _, _, _) => []
  }

  function AddAt(s: State, index: int, text: string): (State, seq<Out>) {
    var p := FindBlock(s.active, index);
    if p == |s.active| || (text == "" && !s.active[p].ToolBlock?) then (s, [])
    else (Extend(s, p, text), FirstText(s.active[p], text))
  }

  /** What a start or a delta comes to. */
  datatype Move = Opens(index: int, opening: Opening) | Adds(index: int, text: string) | Nothing

  function StartMove(s: State, index: Option<int>, block: StartBlock): (State, Move) {
    match block
    case TextStart(text) =>
      var (i, s1) := SafeIndex(s, index);
      (s1, Opens(i, OpenText(text)))
    case ThinkingStart(text) => (s, if index.None? then Nothing else Opens(index.value, OpenReasoning(None, text)))
    case RedactedStart(data) => (s, if index.None? then Nothing else Opens(index.value, OpenReasoning(Some(data), "")))
    case ToolStart(id, name, input) => (s, if index.None? then Nothing else Opens(index.value, OpenTool(id, name, input)))
    case OtherStart => (s, Nothing)
  }

  function DeltaMove(s: State, index: Option<int>, delta: DeltaBody): (State, Move) {
    match delta
    case TextPart(text) =>
      var (i, s1) := SafeIndex(s, index);
      var p := FindBlock(s1.active, i);
      (s1, if p < |s1.active| && s1.active[p].TextBlock? then Adds(i, text) else Opens(i, OpenText(text)))
    case ThinkingPart(text) =>
      if index.None? then (s, Nothing)
      else
        var i := index.value;
        var p := FindBlock(s.active, i);
        (s, if p < |s.active| && s.active[p].ReasoningBlock? then Adds(i, text) else Opens(i, OpenReasoning(None, text)))
    case JsonPart(json) =>
      if index.None? then (s, Nothing)
      else
        var p := FindBlock(s.active, index.value);
        (s, if p < |s.active| && s.active[p].ToolBlock? then Adds(index.value, json) else Nothing)
    case OtherPart => (s, Nothing)
  }

  function Make(env: Env, s: State, m: Move): (State, seq<Out>) {
    match m
    case Opens(index, o) => OpenAt(env, s, index, o)
    case Adds(index, text) => AddAt(s, index, text)
    case Nothing => (s, [])
  }

  function HandleStart(env: Env, s: State, index: Option<int>, block: StartBlock): (State, seq<Out>) {
    var (s1, m) := StartMove(s, index, block);
    Make(env, s1, m)
  }

  function HandleDelta(env: Env, s: State, index: Option<int>, delta: DeltaBody): (State, seq<Out>) {
    var (s1, m) := DeltaMove(s, index, delta);
    Make(env, s1, m)
  }

  function EnsureStarted(s: State): (State, seq<Out>) {
    if s.started then (s, []) else (s.(started := true), [Created(Payload(s))])
  }

  function Handle(env: Env, s: State, e: Event): (State, seq<Out>) {
    match e
    case BlockStart(index, block) => HandleStart(env, s, index, block)
    case BlockDelta(index, delta) => HandleDelta(env, s, index, delta)
    case BlockStop(index) => if index.None? then (s, []) else CompleteAt(env, s, index.value)
    case MessageDelta(i, o) =>
      (s.(inputTokens := if i.Some? then i else s.inputTokens,
          outputTokens := if o.Some? then o else s.outputTokens), [])
    case MessageStop => CompleteResponse(env, s)
    case ErrorEvent(message) => FailResponse(env, s, message)
    case OtherEvent => (s, [])
  }

  function Process(env: Env, s: State, e: Event): (State, seq<Out>) {
    if s.terminal then (s, [])
    else
      var (s1, out1) := EnsureStarted(s);
      var (s2, out2) := Handle(env, s1, e);
      (s2, out1 + out2)
  }

  function Finish(env: Env, s: State): (State, seq<Out>) {
    if s.terminal then (s, [])
    else
      var (s1, out1) := EnsureStarted(s);
      var (s2, out2) := CompleteResponse(env, s1);
      (s2, out1 + out2)
  }

  /** The driver (core/openai_responses/stream.py): it stops behind the event that ended the
      stream, and otherwise finishes it. */
  function Drive(env: Env, s: State, events: seq<Event>): seq<Out>
    decreases |events|
  {
    if events == [] then Finish(env, s).1
    else
      var (s1, out1) := Process(env, s, events[0]);
      if s1.terminal then out1 else out1 + Drive(env, s1, events[1..])
  }

  // ---------------------------------------------------------------- the object

  /** The blank block that an opening makes before its first text is emitted. */
  function Blank(o: Opening): Opening {
    match o
    case OpenText(_) => OpenText("")
    case OpenReasoning(encrypted, _) => OpenReasoning(encrypted, "")
    case OpenTool(_, _, _) => o
  }

  /** Announcing a blank block and emitting its text is announcing it with its text. */
  lemma OpenThenText(env: Env, index: int, slot: nat, o: Opening, text: string)
    requires o == OpenText(text) || (o.OpenReasoning? && o.text == text)
    ensures var blank, b := NewBlock(env, index, slot, Blank(o)), NewBlock(env, index, slot, o);
            && OpeningOut(b) == OpeningOut(blank) + FirstText(b, text)
            && b == (if text == "" then blank else WithPart(blank, text))
            && blank.parts == [] && blank.slot == slot
  {
    JoinedOne(text);
    JoinedOne("");
    assert [] + [text] == [text];
  }

  lemma CompleteAllNone(env: Env, s: State, blocks: seq<Block>)
    requires blocks == [] || s.terminal
    ensures CompleteAll(env, s, blocks).0 == s && CompleteAll(env, s, blocks).1 == []
  {
  }

  lemma CompleteAllStep(env: Env, s: State, blocks: seq<Block>)
    requires blocks != [] && !s.terminal
    ensures var t := Complete(env, s, blocks[0]);
            && CompleteAll(env, s, blocks).0 == CompleteAll(env, t.0, blocks[1..]).0
            && CompleteAll(env, s, blocks).1 == t.1 + CompleteAll(env, t.0, blocks[1..]).1
  {
  }

  class ResponsesStreamAssembler {
    const env: Env
    var outputSlots: seq<Option<Item>>
    var activeBlocks: seq<Block>
    var fallbackTextIndex: int
    var inputTokens: Option<int>
    var outputTokens: Option<int>
    var reasoningTokensEstimate: nat
    var started: bool
    var terminal: bool

    function Abs(): State
      reads this
    {
      State(outputSlots, activeBlocks, fallbackTextIndex, inputTokens, outputTokens,
            reasoningTokensEstimate, started, terminal)
    }

    constructor (env: Env)
      ensures this.env == env && Abs() == INIT
    {
      this.env := env;
      outputSlots, activeBlocks, fallbackTextIndex := [], [], -1;
      inputTokens, outputTokens, reasoningTokensEstimate := None, None, 0;
      started, terminal := false, false;
    }

    method ProcessAnthropicEvent(e: Event) returns (chunks: seq<Out>)
      modifies this
      ensures Abs() == Process(env, old(Abs()), e).0
      ensures chunks == Process(env, old(Abs()), e).1
    {
      if terminal {
        return [];
      }
      chunks := EnsureStartedEvents();
      var more := [];
      match e {
        case BlockStart(index, block) => more := HandleContentBlockStart(index, block);
        case BlockDelta(index, delta) => more := HandleContentBlockDelta(index, delta);
        case BlockStop(index) => more := HandleContentBlockStop(index);
        case MessageDelta(i, o) =>
          if i.Some? {
            inputTokens := i;
          }
          if o.Some? {
            outputTokens := o;
          }
        case MessageStop => more := CompleteTheResponse();
        case ErrorEvent(message) => more := FailTheResponse(message);
        case OtherEvent =>
      }
      chunks := chunks + more;
    }

    method FinishIfNeeded() returns (chunks: seq<Out>)
      modifies this
      ensures Abs() == Finish(env, old(Abs())).0
      ensures chunks == Finish(env, old(Abs())).1
    {
      if terminal {
        return [];
      }
      chunks := EnsureStartedEvents();
      var more := CompleteTheResponse();
      chunks := chunks + more;
    }

    method CompleteTheResponse() returns (chunks: seq<Out>)
      modifies this
      ensures Abs() == CompleteResponse(env, old(Abs())).0
      ensures chunks == CompleteResponse(env, old(Abs())).1
    {
      chunks := FlushActiveBlocks();
      if !terminal {
        chunks := chunks + [ResponseCompleted(Payload(Abs()))];
        terminal := true;
      }
    }

    method FailTheResponse(message: string) returns (chunks: seq<Out>)
      modifies this
      ensures Abs() == FailResponse(env, old(Abs()), message).0
      ensures chunks == FailResponse(env, old(Abs()), message).1
    {
      chunks := FlushActiveBlocks();
      if !terminal {
        chunks := chunks + [ResponseFailed(Payload(Abs()), message)];
        terminal := true;
      }
    }

    method EnsureStartedEvents() returns (chunks: seq<Out>)
      modifies this
      ensures Abs() == EnsureStarted(old(Abs())).0
      ensures chunks == EnsureStarted(old(Abs())).1
    {
      if started {
        return [];
      }
      chunks := [Created(Payload(Abs()))];
      started := true;
    }

    method HandleContentBlockStart(index: Option<int>, block: StartBlock) returns (chunks: seq<Out>)
      requires !terminal
      modifies this
      ensures Abs() == HandleStart(env, old(Abs()), index, block).0
      ensures chunks == HandleStart(env, old(Abs()), index, block).1
    {
      chunks := [];
      match block {
        case TextStart(text) =>
          var i := TakeSafeIndex(index);
          chunks := OpenWithText(i, OpenText(text), text);
        case ThinkingStart(text) =>
          if index.Some? {
            chunks := OpenWithText(index.value, OpenReasoning(None, text), text);
          }
        case RedactedStart(data) =>
          if index.Some? {
            chunks := StartBlockAt(index.value, OpenReasoning(Some(data), ""));
          }
        case ToolStart(id, name, input) =>
          if index.Some? {
            chunks := StartBlockAt(index.value, OpenTool(id, name, input));
          }
        case OtherStart =>
      }
    }

    /** Starts a blank text or reasoning block, then emits its first text as a delta. */
    method OpenWithText(index: int, o: Opening, text: string) returns (chunks: seq<Out>)
      requires o == OpenText(text) || (o.OpenReasoning? && o.text == text)
      requires !terminal
      modifies this
      ensures Abs() == OpenAt(env, old(Abs()), index, o).0
      ensures chunks == OpenAt(env, old(Abs()), index, o).1
    {
      ghost var s := Abs();
      chunks := StartBlockAt(index, Blank(o));
      if !terminal {
        ghost var slot := |outputSlots| - 1;
        OpenThenText(env, index, slot, o, text);
        ghost var before := chunks;
        var more := EmitDelta(|activeBlocks| - 1, text);
        chunks := chunks + more;
        ConcatAssoc(CompleteAt(env, s, index).1, OpeningOut(NewBlock(env, index, slot, Blank(o))), more);
      }
    }

    /** Completes a block that uses the index, then reserves a slot for the new one. */
    method StartBlockAt(index: int, o: Opening) returns (chunks: seq<Out>)
      requires !terminal
      modifies this
      ensures Abs() == OpenAt(env, old(Abs()), index, o).0
      ensures chunks == OpenAt(env, old(Abs()), index, o).1
      ensures !terminal ==> outputSlots != [] && activeBlocks != []
      ensures !terminal ==> activeBlocks[|activeBlocks| - 1] == NewBlock(env, index, |outputSlots| - 1, o)
    {
      chunks := CompleteExistingBlock(index);
      if !terminal {
        var slot := ReserveOutputSlot();
        var b := NewBlock(env, index, slot, o);
        activeBlocks := activeBlocks + [b];
        chunks := chunks + OpeningOut(b);
      }
    }

    method HandleContentBlockDelta(index: Option<int>, delta: DeltaBody) returns (chunks: seq<Out>)
      requires !terminal
      modifies this
      ensures Abs() == HandleDelta(env, old(Abs()), index, delta).0
      ensures chunks == HandleDelta(env, old(Abs()), index, delta).1
    {
      chunks := [];
      match delta {
        case TextPart(text) =>
          var i := TakeSafeIndex(index);
          var p := FindBlock(activeBlocks, i);
          if p < |activeBlocks| && activeBlocks[p].TextBlock? {
            chunks := EmitDelta(p, text);
          } else {
            chunks := OpenWithText(i, OpenText(text), text);
          }
        case ThinkingPart(text) =>
          if index.Some? {
            var p := FindBlock(activeBlocks, index.value);
            if p < |activeBlocks| && activeBlocks[p].ReasoningBlock? {
              chunks := EmitDelta(p, text);
            } else {
              chunks := OpenWithText(index.value, OpenReasoning(None, text), text);
            }
          }
        case JsonPart(json) =>
          if index.Some? {
            var p := FindBlock(activeBlocks, index.value);
            if p < |activeBlocks| && activeBlocks[p].ToolBlock? {
              activeBlocks := activeBlocks[p := WithPart(activeBlocks[p], json)];
            }
          }
        case OtherPart =>
      }
    }

    /** Text for an active block: kept for its end, and passed on unless it is empty. */
    method EmitDelta(p: nat, text: string) returns (chunks: seq<Out>)
      requires p < |activeBlocks| && !activeBlocks[p].ToolBlock?
      modifies this
      ensures Abs() == if text == "" then old(Abs()) else Extend(old(Abs()), p, text)
      ensures chunks == FirstText(old(activeBlocks[p]), text)
    {
      if text == "" {
        return [];
      }
      var b := activeBlocks[p];
      activeBlocks := activeBlocks[p := WithPart(b, text)];
      chunks := [if b.TextBlock? then TextDelta(b.slot, text) else ReasoningDelta(b.slot, text)];
    }

    method HandleContentBlockStop(index: Option<int>) returns (chunks: seq<Out>)
      modifies this
      ensures Abs() == if index.None? then old(Abs()) else CompleteAt(env, old(Abs()), index.value).0
      ensures chunks == if index.None? then [] else CompleteAt(env, old(Abs()), index.value).1
    {
      chunks := [];
      if index.Some? {
        chunks := CompleteExistingBlock(index.value);
      }
    }

    method CompleteExistingBlock(index: int) returns (chunks: seq<Out>)
      modifies this
      ensures Abs() == CompleteAt(env, old(Abs()), index).0
      ensures chunks == CompleteAt(env, old(Abs()), index).1
    {
      var p := FindBlock(activeBlocks, index);
      if p == |activeBlocks| {
        return [];
      }
      var existing := activeBlocks[p];
      activeBlocks := Without(activeBlocks, p);
      chunks := CompleteBlock(existing);
    }

    method CompleteBlock(b: Block) returns (chunks: seq<Out>)
      modifies this
      ensures Abs() == Complete(env, old(Abs()), b).0
      ensures chunks == Complete(env, old(Abs()), b).1
    {
      match b {
        case TextBlock(_, slot, parts) =>
          var text := Joined(parts);
          var item := Message(Completed, [text]);
          CommitOutput(slot, item);
          chunks := [TextDone(slot, text), PartDone(slot, text), ItemDone(slot, item)];
        case ReasoningBlock(_, slot, parts, _) =>
          var item := ReasoningItem(b, Completed);
          CommitOutput(slot, item);
          chunks := [];
          var text := Joined(parts);
          if text != "" {
            reasoningTokensEstimate := reasoningTokensEstimate + env.tokens(text);
            chunks := [ReasoningDone(slot, text)];
          }
          chunks := chunks + [ItemDone(slot, item)];
        case ToolBlock(_, _, _, _, _) =>
          chunks := CompleteToolBlock(b);
      }
    }

    method CompleteToolBlock(b: Block) returns (chunks: seq<Out>)
      requires b.ToolBlock?
      modifies this
      ensures Abs() == Complete(env, old(Abs()), b).0
      ensures chunks == Complete(env, old(Abs()), b).1
    {
      var slot, custom := b.slot, b.tool.kind == CustomTool;
      var text := Joined(b.parts);
      var body;
      if custom {
        body := env.customText(text);
      } else {
        var parsed := env.parse(if text == "" then "{}" else text);
        if parsed.None? {
          chunks := [ResponseFailed(Payload(Abs()), INVALID_ARGUMENTS)];
          terminal := true;
          return;
        }
        body := parsed.value;
      }
      var item := ToolItem(b, Completed, body);
      CommitOutput(slot, item);
      chunks := [];
      if body != "" {
        chunks := [if custom then InputDelta(slot, body) else ArgumentsDelta(slot, body)];
      }
      chunks := chunks + [if custom then InputDone(slot, body) else ArgumentsDone(slot, body), ItemDone(slot, item)];
    }

    method FlushActiveBlocks() returns (chunks: seq<Out>)
      modifies this
      ensures Abs() == Flush(env, old(Abs())).0
      ensures chunks == Flush(env, old(Abs())).1
    {
      var states := SortedBySlot(activeBlocks);
      activeBlocks := [];
      ghost var s := Abs();
      chunks := [];
      var i := 0;
      while i < |states| && !terminal
        invariant 0 <= i <= |states|
        invariant CompleteAll(env, s, states).0 == CompleteAll(env, Abs(), states[i..]).0
        invariant CompleteAll(env, s, states).1 == chunks + CompleteAll(env, Abs(), states[i..]).1
      {
        CompleteAllStep(env, Abs(), states[i..]);
        ghost var rest := CompleteAll(env, Complete(env, Abs(), states[i]).0, states[i + 1..]).1;
        assert states[i..][1..] == states[i + 1..];
        var more := CompleteBlock(states[i]);
        ConcatAssoc(chunks, more, rest);
        chunks := chunks + more;
        i := i + 1;
      }
      CompleteAllNone(env, Abs(), states[i..]);
    }

    method ReserveOutputSlot() returns (outputIndex: nat)
      modifies this
      ensures Abs() == old(Abs()).(slots := old(outputSlots) + [None])
      ensures outputIndex == |old(outputSlots)|
    {
      outputIndex := |outputSlots|;
      outputSlots := outputSlots + [None];
    }

    method CommitOutput(outputIndex: nat, item: Item)
      modifies this
      ensures Abs() == Commit(old(Abs()), outputIndex, item)
    {
      ghost var was := outputSlots;
      while outputIndex >= |outputSlots|
        invariant Abs() == old(Abs()).(slots := outputSlots)
        invariant |was| <= |outputSlots| <= |was| + outputIndex + 1
        invariant outputSlots == was || |outputSlots| <= outputIndex + 1
        invariant outputSlots == was + seq(|outputSlots| - |was|, i => None)
      {
        outputSlots := outputSlots + [None];
      }
      outputSlots := outputSlots[outputIndex := Some(item)];
      if outputIndex >= |was| {
        assert outputSlots == was + seq(outputIndex - |was|, i => None) + [Some(item)];
      }
    }

    method TakeSafeIndex(index: Option<int>) returns (value: int)
      modifies this
      ensures value == SafeIndex(old(Abs()), index).0
      ensures Abs() == SafeIndex(old(Abs()), index).1
    {
      if index.Some? {
        return index.value;
      }
      value := fallbackTextIndex;
      fallbackTextIndex := fallbackTextIndex - 1;
    }
  }

  /** The translation of a whole stream of Anthropic events. */
  method ResponsesFromAnthropic(env: Env, events: seq<Event>) returns (chunks: seq<Out>)
    ensures chunks == Drive(env, INIT, events)
  {
    var assembler := new ResponsesStreamAssembler(env);
    chunks := [];
    var i := 0;
    while i < |events|
      invariant 0 <= i <= |events|
      invariant assembler.env == env
      invariant Drive(env, INIT, events) == chunks + Drive(env, assembler.Abs(), events[i..])
    {
      ghost var s := assembler.Abs();
      var more := assembler.ProcessAnthropicEvent(events[i]);
      assert events[i..][0] == events[i] && events[i..][1..] == events[i + 1..];
      chunks := chunks + more;
      if assembler.terminal {
        return;
      }
      ConcatAssoc(chunks[..|chunks| - |more|], more, Drive(env, assembler.Abs(), events[i + 1..]));
      i := i + 1;
    }
    var more := assembler.FinishIfNeeded();
    chunks := chunks + more;
  }
}
