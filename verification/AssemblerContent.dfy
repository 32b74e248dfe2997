/** What becomes of content. Every text and every thought is passed on in order. From its start to
    its stop each block collects exactly the deltas of its own index, while others open, grow, stop
    or fail to parse, and becomes the item that holds them, at the slot its start announced. And
    every stream has the shape of a response: one creation, slots that count up from zero, each item
    finished once, one end. */
module AssemblerContent {
  import opened Text
  import opened ToolNames
  import opened Assembler
  import opened AssemblerContract

  // ---------------------------------------------------------------- conservation of text

  datatype Said = SaidText(text: string) | SaidThinking(thinking: string)

  function SayText(text: string): seq<Said> {
    if text == "" then [] else [SaidText(text)]
  }

  function SayThinking(text: string): seq<Said> {
    if text == "" then [] else [SaidThinking(text)]
  }

  /** The text an emitted event brings. */
  function Spoken(out: Out): seq<Said> {
    match out
    case TextDelta(_, text) => SayText(text)
    case ReasoningDelta(_, text) => SayThinking(text)
    case _ => []
  }

  /** The text an Anthropic event brings. Thinking without an index has no block to go to. */
  function Heard(e: Event): seq<Said> {
    match e
    case BlockStart(_, TextStart(text)) => SayText(text)
    case BlockStart(Some(_), ThinkingStart(text)) => SayThinking(text)
    case BlockDelta(_, TextPart(text)) => SayText(text)
    case BlockDelta(Some(_), ThinkingPart(text)) => SayThinking(text)
    case _ => []
  }

  function SpokenIn(outs: seq<Out>): seq<Said> {
    FlatMap(Spoken, outs)
  }

  predicate Silent(outs: seq<Out>) {
    SpokenIn(outs) == []
  }

  lemma SpokenAppend(a: seq<Out>, b: seq<Out>)
    ensures SpokenIn(a + b) == SpokenIn(a) + SpokenIn(b)
  {
    FlatMapAppend(Spoken, a, b);
  }

  lemma SilentThen(a: seq<Out>, b: seq<Out>)
    requires Silent(a)
    ensures SpokenIn(a + b) == SpokenIn(b)
  {
    SpokenAppend(a, b);
    assert [] + SpokenIn(b) == SpokenIn(b);
  }

  lemma AllSilent(outs: seq<Out>)
    requires forall out :: out in outs ==> Spoken(out) == []
    ensures Silent(outs)
  {
    FlatMapNone(Spoken, outs);
  }

  lemma TextIsSilent(env: Env, s: State, b: Block)
    requires b.TextBlock?
    ensures Silent(Complete(env, s, b).1)
  {
    AllSilent(Complete(env, s, b).1);
  }

  lemma ReasoningIsSilent(env: Env, s: State, b: Block)
    requires b.ReasoningBlock?
    ensures Silent(Complete(env, s, b).1)
  {
    AllSilent(Complete(env, s, b).1);
  }

  lemma ToolIsSilent(env: Env, s: State, b: Block)
    requires b.ToolBlock?
    ensures Silent(Complete(env, s, b).1)
  {
    AllSilent(Complete(env, s, b).1);
  }

  lemma CompleteIsSilent(env: Env, s: State, b: Block)
    ensures Silent(Complete(env, s, b).1)
  {
    match b
    case TextBlock(_, _, _) => TextIsSilent(env, s, b);
    case ReasoningBlock(_, _, _, _) => ReasoningIsSilent(env, s, b);
    case ToolBlock(_, _, _, _, _) => ToolIsSilent(env, s, b);
  }

  lemma CompleteAtIsSilent(env: Env, s: State, index: int)
    ensures Silent(CompleteAt(env, s, index).1)
  {
    var p := FindBlock(s.active, index);
    if p < |s.active| {
      CompleteIsSilent(env, s.(active := Without(s.active, p)), s.active[p]);
    }
  }

  lemma {:induction false} CompleteAllIsSilent(env: Env, s: State, blocks: seq<Block>)
    ensures Silent(CompleteAll(env, s, blocks).1)
    decreases |blocks|
  {
    if blocks == [] || s.terminal {
      CompleteAllNone(env, s, blocks);
    } else {
      CompleteAllStep(env, s, blocks);
      var t := Complete(env, s, blocks[0]);
      CompleteIsSilent(env, s, blocks[0]);
      CompleteAllIsSilent(env, t.0, blocks[1..]);
      SilentThen(t.1, CompleteAll(env, t.0, blocks[1..]).1);
    }
  }

  lemma CompleteResponseIsSilent(env: Env, s: State)
    ensures Silent(CompleteResponse(env, s).1)
  {
    CompleteAllIsSilent(env, s.(active := []), SortedBySlot(s.active));
    var (s1, out1) := Flush(env, s);
    SilentThen(out1, [ResponseCompleted(Payload(s1))]);
    FlatMapOne(Spoken, ResponseCompleted(Payload(s1)));
  }

  lemma FailResponseIsSilent(env: Env, s: State, message: string)
    ensures Silent(FailResponse(env, s, message).1)
  {
    CompleteAllIsSilent(env, s.(active := []), SortedBySlot(s.active));
    var (s1, out1) := Flush(env, s);
    SilentThen(out1, Fail(s1, message).1);
    FlatMapOne(Spoken, ResponseFailed(Payload(s1), message));
  }

  function OpeningSays(o: Opening): seq<Said> {
    match o
    case OpenText(text) => SayText(text)
    case OpenReasoning(_, text) => SayThinking(text)
    case OpenTool(_, _, _) => []
  }

  lemma OpeningIsSaid(env: Env, index: int, slot: nat, o: Opening)
    ensures SpokenIn(OpeningOut(NewBlock(env, index, slot, o))) == OpeningSays(o)
  {
    var b := NewBlock(env, index, slot, o);
    var added := ItemAdded(slot, Announced(b));
    FlatMapOne(Spoken, added);
    match o
    case OpenText(text) =>
      JoinedOne(text);
      var tail := NonEmpty(TextDelta(slot, text), text);
      FlatMapOne(Spoken, PartAdded(slot));
      FlatMapOne(Spoken, TextDelta(slot, text));
      SilentThen([PartAdded(slot)], tail);
      SilentThen([added], [PartAdded(slot)] + tail);
    case OpenReasoning(_, text) =>
      JoinedOne(text);
      FlatMapOne(Spoken, ReasoningDelta(slot, text));
      SilentThen([added], NonEmpty(ReasoningDelta(slot, text), text));
    case OpenTool(_, _, _) =>
      SilentThen([added], []);
  }

  lemma OpenAtIsSaid(env: Env, s: State, index: int, o: Opening)
    requires !OpenAt(env, s, index, o).0.terminal
    ensures SpokenIn(OpenAt(env, s, index, o).1) == OpeningSays(o)
  {
    CompleteAtIsSilent(env, s, index);
    var (s1, out1) := CompleteAt(env, s, index);
    OpeningIsSaid(env, index, |s1.slots|, o);
    SilentThen(out1, OpeningOut(NewBlock(env, index, |s1.slots|, o)));
  }

  lemma OpenAtThatFails(env: Env, s: State, index: int, o: Opening)
    requires OpenAt(env, s, index, o).0.terminal && !s.terminal
    ensures Silent(OpenAt(env, s, index, o).1)
  {
    CompleteAtIsSilent(env, s, index);
  }

  /** What opening a block says, whether or not the stream goes on behind it. */
  predicate Says(t: (State, seq<Out>), said: seq<Said>) {
    SpokenIn(t.1) == if t.0.terminal then [] else said
  }

  lemma OpenAtSays(env: Env, s: State, index: int, o: Opening)
    requires !s.terminal
    ensures Says(OpenAt(env, s, index, o), OpeningSays(o))
  {
    if OpenAt(env, s, index, o).0.terminal {
      OpenAtThatFails(env, s, index, o);
    } else {
      OpenAtIsSaid(env, s, index, o);
    }
  }

  /** The text of a move. */
  function MoveSaid(s: State, m: Move): seq<Said> {
    match m
    case Opens(_, o) => OpeningSays(o)
    case Adds(index, text) =>
      var p := FindBlock(s.active, index);
      if p == |s.active| || s.active[p].ToolBlock? then []
      else if s.active[p].TextBlock? then SayText(text)
      else SayThinking(text)
    case Nothing => []
  }

  lemma MoveSays(env: Env, s: State, m: Move)
    requires !s.terminal
    ensures Says(Make(env, s, m), MoveSaid(s, m))
  {
    match m
    case Opens(index, o) => OpenAtSays(env, s, index, o);
    case Adds(index, text) =>
      var p := FindBlock(s.active, index);
      if p < |s.active| {
        FlatMapOne(Spoken, TextDelta(s.active[p].slot, text));
        FlatMapOne(Spoken, ReasoningDelta(s.active[p].slot, text));
      }
    case Nothing =>
  }

  lemma StartHeard(s: State, index: Option<int>, block: StartBlock)
    ensures MoveSaid(StartMove(s, index, block).0, StartMove(s, index, block).1) == Heard(BlockStart(index, block))
    ensures StartMove(s, index, block).0.terminal == s.terminal
  {
  }

  lemma DeltaHeard(s: State, index: Option<int>, delta: DeltaBody)
    ensures MoveSaid(DeltaMove(s, index, delta).0, DeltaMove(s, index, delta).1) == Heard(BlockDelta(index, delta))
    ensures DeltaMove(s, index, delta).0.terminal == s.terminal
  {
  }

  lemma HandleSays(env: Env, s: State, e: Event)
    requires !s.terminal
    ensures Says(Handle(env, s, e), Heard(e))
  {
    match e
    case BlockStart(index, block) =>
      StartHeard(s, index, block);
      MoveSays(env, StartMove(s, index, block).0, StartMove(s, index, block).1);
    case BlockDelta(index, delta) =>
      DeltaHeard(s, index, delta);
      MoveSays(env, DeltaMove(s, index, delta).0, DeltaMove(s, index, delta).1);
    case BlockStop(index) =>
      if index.Some? {
        CompleteAtIsSilent(env, s, index.value);
      }
    case MessageDelta(_, _) =>
    case MessageStop => CompleteResponseIsSilent(env, s);
    case ErrorEvent(message) => FailResponseIsSilent(env, s, message);
    case OtherEvent =>
  }

  /** One event passes its text on, unless the stream ends with it. */
  lemma ProcessSays(env: Env, s: State, e: Event)
    requires !s.terminal
    ensures Says(Process(env, s, e), Heard(e))
  {
    var (s1, out1) := EnsureStarted(s);
    HandleSays(env, s1, e);
    FlatMapOne(Spoken, Created(Payload(s)));
    SilentThen(out1, Handle(env, s1, e).1);
  }

  lemma FinishIsSilent(env: Env, s: State)
    ensures Silent(Finish(env, s).1)
  {
    if !s.terminal {
      var (s1, out1) := EnsureStarted(s);
      CompleteResponseIsSilent(env, s1);
      FlatMapOne(Spoken, Created(Payload(s)));
      SilentThen(out1, CompleteResponse(env, s1).1);
    }
  }

  /** The events of a run that do not end it. */
  function Survived(env: Env, s: State, events: seq<Event>): seq<Event>
    decreases |events|
  {
    if events == [] || Process(env, s, events[0]).0.terminal then []
    else [events[0]] + Survived(env, Process(env, s, events[0]).0, events[1..])
  }

  lemma {:induction false} DriveSays(env: Env, s: State, events: seq<Event>)
    requires !s.terminal
    ensures SpokenIn(Drive(env, s, events)) == FlatMap(Heard, Survived(env, s, events))
    ensures Survived(env, s, events) <= events
    decreases |events|
  {
    if events == [] {
      FinishIsSilent(env, s);
    } else {
      var (s1, out1) := Process(env, s, events[0]);
      ProcessSays(env, s, events[0]);
      if !s1.terminal {
        var rest := Survived(env, s1, events[1..]);
        DriveSays(env, s1, events[1..]);
        SpokenAppend(out1, Drive(env, s1, events[1..]));
        assert ([events[0]] + rest)[1..] == rest;
        assert events == [events[0]] + events[1..];
      }
    }
  }

  // ---------------------------------------------------------------- one block among others

  function Lookup(active: seq<Block>, index: int): Option<Block> {
    var p := FindBlock(active, index);
    if p < |active| then Some(active[p]) else None
  }

  lemma LookupTail(active: seq<Block>, index: int)
    requires active != []
    ensures Lookup(active, index)
            == if active[0].index == index then Some(active[0]) else Lookup(active[1..], index)
  {
  }

  lemma {:induction false} LookupWithout(active: seq<Block>, q: nat, index: int)
    requires q < |active| && active[q].index != index
    ensures Lookup(Without(active, q), index) == Lookup(active, index)
  {
    LookupTail(active, index);
    if q == 0 {
      assert Without(active, 0) == active[1..];
    } else {
      assert Without(active, q) == [active[0]] + Without(active[1..], q - 1);
      assert Without(active, q)[1..] == Without(active[1..], q - 1);
      LookupTail(Without(active, q), index);
      LookupWithout(active[1..], q - 1, index);
    }
  }

  lemma {:induction false} LookupSnoc(active: seq<Block>, b: Block, index: int)
    ensures Lookup(active + [b], index)
            == if Lookup(active, index).Some? then Lookup(active, index)
               else if b.index == index then Some(b) else None
  {
    LookupTail(active + [b], index);
    if active == [] {
      assert ([] + [b])[1..] == [];
    } else {
      LookupTail(active, index);
      assert (active + [b])[1..] == active[1..] + [b];
      LookupSnoc(active[1..], b, index);
    }
  }

  lemma {:induction false} LookupUpdate(active: seq<Block>, i: int, b: Block, index: int)
    requires FindBlock(active, i) < |active| && b.index == i
    ensures Lookup(active[FindBlock(active, i) := b], index) == if i == index then Some(b) else Lookup(active, index)
  {
    var p := FindBlock(active, i);
    var active' := active[p := b];
    LookupTail(active, index);
    LookupTail(active', index);
    if p > 0 {
      assert active'[1..] == active[1..][p - 1 := b];
      LookupUpdate(active[1..], i, b, index);
    }
  }

  /** The event leaves the block of an index open. */
  predicate Leaves(b: Block, e: Event) {
    match e
    case BlockStart(None, TextStart(_)) => 0 <= b.index
    case BlockStart(index, _) => index != Some(b.index)
    case BlockDelta(None, TextPart(_)) => 0 <= b.index
    case BlockDelta(Some(i), TextPart(_)) => i == b.index ==> b.TextBlock?
    case BlockDelta(Some(i), ThinkingPart(_)) => i == b.index ==> b.ReasoningBlock?
    case BlockDelta(_, _) => true
    case BlockStop(index) => index != Some(b.index)
    case MessageStop => false
    case ErrorEvent(_) => false
    case _ => true
  }

  /** What the event adds to the block. */
  function Own(b: Block, e: Event): seq<string> {
    match e
    case BlockDelta(Some(i), TextPart(text)) => if i == b.index then OneIfAny(text) else []
    case BlockDelta(Some(i), ThinkingPart(text)) => if i == b.index then OneIfAny(text) else []
    case BlockDelta(Some(i), JsonPart(json)) => if i == b.index && b.ToolBlock? then [json] else []
    case _ => []
  }

  function Grown(b: Block, parts: seq<string>): Block {
    b.(parts := b.parts + parts)
  }

  lemma GrownNone(b: Block)
    ensures Grown(b, []) == b
  {
    assert b.parts + [] == b.parts;
  }

  /** The block is the one at its index; fallback indices are below zero. */
  predicate Holds(s: State, b: Block) {
    Lookup(s.active, b.index) == Some(b) && s.fallbackIndex < 0
  }

  lemma CompleteAtOther(env: Env, s: State, b: Block, index: int)
    requires Holds(s, b) && index != b.index
    ensures Holds(CompleteAt(env, s, index).0, b)
  {
    var q := FindBlock(s.active, index);
    if q < |s.active| {
      LookupWithout(s.active, q, b.index);
      var rest := s.(active := Without(s.active, q));
      CompleteKeepsPlace(env, rest, s.active[q]);
    }
  }

  lemma CompleteKeepsPlace(env: Env, s: State, b: Block)
    ensures var t := Complete(env, s, b).0;
            t.active == s.active && t.fallbackIndex == s.fallbackIndex && t.started == s.started
  {
  }

  lemma OpenAtOther(env: Env, s: State, b: Block, index: int, o: Opening)
    requires Holds(s, b) && index != b.index
    ensures Holds(OpenAt(env, s, index, o).0, b)
  {
    CompleteAtOther(env, s, b, index);
    var s1 := CompleteAt(env, s, index).0;
    LookupSnoc(s1.active, NewBlock(env, index, |s1.slots|, o), b.index);
  }

  /** The block with what a move adds to it. */
  function Moved(b: Block, m: Move): Block {
    if m.Adds? && m.index == b.index && (m.text != "" || b.ToolBlock?) then WithPart(b, m.text) else b
  }

  lemma MoveGrows(env: Env, s: State, b: Block, m: Move)
    requires Holds(s, b) && (m.Opens? ==> m.index != b.index)
    ensures Holds(Make(env, s, m).0, Moved(b, m))
  {
    match m
    case Opens(index, o) => OpenAtOther(env, s, b, index, o);
    case Adds(index, text) =>
      var p := FindBlock(s.active, index);
      if p < |s.active| {
        LookupUpdate(s.active, index, WithPart(s.active[p], text), b.index);
      }
    case Nothing =>
  }

  lemma DeltaMoves(s: State, b: Block, index: Option<int>, delta: DeltaBody)
    requires Holds(s, b) && Leaves(b, BlockDelta(index, delta))
    ensures var (t, m) := DeltaMove(s, index, delta);
            Holds(t, b) && (m.Opens? ==> m.index != b.index) && Moved(b, m) == Grown(b, Own(b, BlockDelta(index, delta)))
  {
    GrownNone(b);
  }

  lemma ProcessGrows(env: Env, s: State, b: Block, e: Event)
    requires Holds(s, b) && Leaves(b, e)
    ensures Process(env, s, e).0.terminal || Holds(Process(env, s, e).0, Grown(b, Own(b, e)))
  {
    GrownNone(b);
    if !s.terminal {
      var s1 := EnsureStarted(s).0;
      match e
      case BlockStart(index, block) => MoveGrows(env, StartMove(s1, index, block).0, b, StartMove(s1, index, block).1);
      case BlockDelta(index, delta) =>
        DeltaMoves(s1, b, index, delta);
        MoveGrows(env, DeltaMove(s1, index, delta).0, b, DeltaMove(s1, index, delta).1);
      case BlockStop(index) =>
        if index.Some? {
          CompleteAtOther(env, s1, b, index.value);
        }
      case MessageDelta(_, _) =>
      case OtherEvent =>
    }
  }

  /** The state after a run of events. */
  function After(env: Env, s: State, events: seq<Event>): State
    decreases |events|
  {
    if events == [] then s else After(env, Process(env, s, events[0]).0, events[1..])
  }

  function OwnParts(b: Block, events: seq<Event>): seq<string> {
    FlatMap((e: Event) => Own(b, e), events)
  }

  lemma {:induction false} OwnPartsOfGrown(b: Block, parts: seq<string>, events: seq<Event>)
    ensures OwnParts(Grown(b, parts), events) == OwnParts(b, events)
    decreases |events|
  {
    if events != [] {
      OwnPartsOfGrown(b, parts, events[1..]);
    }
  }

  lemma TerminalStays(env: Env, s: State, events: seq<Event>)
    requires s.terminal
    ensures After(env, s, events) == s
    decreases |events|
  {
  }

  /** While other blocks open, grow, stop and fail to parse, a block collects exactly the parts
      meant for its index, in order. */
  lemma {:induction false} BlockCollectsItsParts(env: Env, s: State, b: Block, events: seq<Event>)
    requires Holds(s, b) && forall e :: e in events ==> Leaves(b, e)
    ensures After(env, s, events).terminal
            || Holds(After(env, s, events), Grown(b, OwnParts(b, events)))
    decreases |events|
  {
    if events == [] {
      GrownNone(b);
    } else {
      var e := events[0];
      var s1, b1 := Process(env, s, e).0, Grown(b, Own(b, e));
      assert e in events;
      ProcessGrows(env, s, b, e);
      if s1.terminal {
        TerminalStays(env, s1, events[1..]);
      } else {
        forall e' | e' in events[1..]
          ensures Leaves(b1, e')
        {
          assert e' in events;
          assert Leaves(b, e');
        }
        BlockCollectsItsParts(env, s1, b1, events[1..]);
        OwnPartsOfGrown(b, Own(b, e), events[1..]);
        ConcatAssoc(b.parts, Own(b, e), OwnParts(b, events[1..]));
      }
    }
  }

  // ---------------------------------------------------------------- from a start to its stop

  function OpeningOf(block: StartBlock): Opening
    requires !block.OtherStart?
  {
    match block
    case TextStart(text) => OpenText(text)
    case ThinkingStart(text) => OpenReasoning(None, text)
    case RedactedStart(data) => OpenReasoning(Some(data), "")
    case ToolStart(id, name, input) => OpenTool(id, name, input)
  }

  lemma {:induction false} NoBlockLeft(active: seq<Block>, index: int)
    requires FindBlock(active, index) == |active|
    ensures forall b :: b in active ==> b.index != index
  {
    if active != [] {
      NoBlockLeft(active[1..], index);
    }
  }

  /** The dictionary has one block to an index. */
  predicate OnePerIndex(active: seq<Block>) {
    forall i, j :: 0 <= i < j < |active| ==> active[i].index != active[j].index
  }

  lemma {:induction false} FindsNone(active: seq<Block>, index: int)
    requires forall b :: b in active ==> b.index != index
    ensures FindBlock(active, index) == |active|
  {
    if active != [] {
      assert active[0] in active;
      FindsNone(active[1..], index);
    }
  }

  lemma CompleteAtRemoves(env: Env, s: State, index: int)
    requires OnePerIndex(s.active)
    ensures Lookup(CompleteAt(env, s, index).0.active, index) == None
  {
    var p := FindBlock(s.active, index);
    if p < |s.active| {
      var rest := Without(s.active, p);
      CompleteKeepsPlace(env, s.(active := rest), s.active[p]);
      forall b | b in rest
        ensures b.index != index
      {
        var k :| 0 <= k < |rest| && rest[k] == b;
        assert b == s.active[if k < p then k else k + 1];
      }
      FindsNone(rest, index);
    }
  }

  lemma StartOpens(env: Env, s: State, index: int, block: StartBlock)
    requires !s.terminal && !block.OtherStart?
    ensures var t := OpenAt(env, EnsureStarted(s).0, index, OpeningOf(block));
            && Process(env, s, BlockStart(Some(index), block)).0 == t.0
            && Process(env, s, BlockStart(Some(index), block)).1 == EnsureStarted(s).1 + t.1
  {
  }

  /** What opening leaves at its index, unless completing the block before it ended the stream. */
  lemma OpenAtHolds(env: Env, s: State, index: int, o: Opening)
    requires Tidy(s)
    ensures var t := OpenAt(env, s, index, o).0;
            t.terminal || (t.slots != [] && Holds(t, NewBlock(env, index, |t.slots| - 1, o)))
  {
    CompleteAtRemoves(env, s, index);
    CompleteAtKeepsFallback(env, s, index);
    var s1 := CompleteAt(env, s, index).0;
    LookupSnoc(s1.active, NewBlock(env, index, |s1.slots|, o), index);
  }

  /** What a start leaves at its index. */
  lemma StartHolds(env: Env, s: State, index: int, block: StartBlock)
    requires !s.terminal && Tidy(s) && !block.OtherStart?
    ensures var t := Process(env, s, BlockStart(Some(index), block)).0;
            t.terminal || (t.slots != [] && Holds(t, NewBlock(env, index, |t.slots| - 1, OpeningOf(block))))
  {
    StartOpens(env, s, index, block);
    OpenAtHolds(env, EnsureStarted(s).0, index, OpeningOf(block));
  }

  lemma CompleteAtKeepsFallback(env: Env, s: State, index: int)
    ensures CompleteAt(env, s, index).0.fallbackIndex == s.fallbackIndex
  {
    var p := FindBlock(s.active, index);
    if p < |s.active| {
      CompleteKeepsPlace(env, s.(active := Without(s.active, p)), s.active[p]);
    }
  }

  // ---------------------------------------------------------------- every reachable state

  /** One block to an index, and the fallback indices below zero. */
  predicate Tidy(s: State) {
    OnePerIndex(s.active) && s.fallbackIndex < 0
  }

  lemma OnePerIndexWithout(active: seq<Block>, p: nat)
    requires OnePerIndex(active) && p < |active|
    ensures OnePerIndex(Without(active, p))
  {
    var rest := Without(active, p);
    forall i, j | 0 <= i < j < |rest|
      ensures rest[i].index != rest[j].index
    {
      var i', j' := if i < p then i else i + 1, if j < p then j else j + 1;
      assert rest[i] == active[i'] && rest[j] == active[j'];
    }
  }

  lemma OnePerIndexSnoc(active: seq<Block>, b: Block)
    requires OnePerIndex(active) && Lookup(active, b.index) == None
    ensures OnePerIndex(active + [b])
  {
    NoBlockLeft(active, b.index);
  }

  lemma CompleteAtIsTidy(env: Env, s: State, index: int)
    requires Tidy(s)
    ensures Tidy(CompleteAt(env, s, index).0)
  {
    var p := FindBlock(s.active, index);
    if p < |s.active| {
      OnePerIndexWithout(s.active, p);
      CompleteKeepsPlace(env, s.(active := Without(s.active, p)), s.active[p]);
    }
  }

  lemma OpenAtIsTidy(env: Env, s: State, index: int, o: Opening)
    requires Tidy(s)
    ensures Tidy(OpenAt(env, s, index, o).0)
  {
    CompleteAtIsTidy(env, s, index);
    CompleteAtRemoves(env, s, index);
    var s1 := CompleteAt(env, s, index).0;
    OnePerIndexSnoc(s1.active, NewBlock(env, index, |s1.slots|, o));
  }

  lemma MoveIsTidy(env: Env, s: State, m: Move)
    requires Tidy(s)
    ensures Tidy(Make(env, s, m).0)
  {
    if m.Opens? {
      OpenAtIsTidy(env, s, m.index, m.opening);
    }
  }

  lemma {:induction false} CompleteAllIsTidy(env: Env, s: State, blocks: seq<Block>)
    requires Tidy(s)
    ensures Tidy(CompleteAll(env, s, blocks).0)
    decreases |blocks|
  {
    if blocks != [] && !s.terminal {
      CompleteKeepsPlace(env, s, blocks[0]);
      CompleteAllIsTidy(env, Complete(env, s, blocks[0]).0, blocks[1..]);
    }
  }

  lemma ProcessIsTidy(env: Env, s: State, e: Event)
    requires Tidy(s)
    ensures Tidy(Process(env, s, e).0)
  {
    if !s.terminal {
      var s1 := EnsureStarted(s).0;
      match e
      case BlockStart(index, block) => MoveIsTidy(env, StartMove(s1, index, block).0, StartMove(s1, index, block).1);
      case BlockDelta(index, delta) => MoveIsTidy(env, DeltaMove(s1, index, delta).0, DeltaMove(s1, index, delta).1);
      case BlockStop(index) =>
        if index.Some? {
          CompleteAtIsTidy(env, s1, index.value);
        }
      case MessageDelta(_, _) =>
      case MessageStop => CompleteAllIsTidy(env, s1.(active := []), SortedBySlot(s1.active));
      case ErrorEvent(_) => CompleteAllIsTidy(env, s1.(active := []), SortedBySlot(s1.active));
      case OtherEvent =>
    }
  }

  lemma {:induction false} AfterIsTidy(env: Env, s: State, events: seq<Event>)
    requires Tidy(s)
    ensures Tidy(After(env, s, events))
    decreases |events|
  {
    if events != [] {
      ProcessIsTidy(env, s, events[0]);
      AfterIsTidy(env, Process(env, s, events[0]).0, events[1..]);
    }
  }

  // ---------------------------------------------------------------- the life of a block

  /** A block as far as it decides which events are its own. */
  function Kind(index: int, block: StartBlock): Block
    requires !block.OtherStart?
  {
    match block
    case TextStart(_) => TextBlock(index, 0, [])
    case ThinkingStart(_) => ReasoningBlock(index, 0, [], None)
    case RedactedStart(_) => ReasoningBlock(index, 0, [], None)
    case ToolStart(_, _, _) => ToolBlock(index, 0, [], "", Identity(FunctionTool, "", None))
  }

  predicate SameKind(a: Block, b: Block) {
    a.index == b.index && (a.TextBlock? <==> b.TextBlock?) && (a.ReasoningBlock? <==> b.ReasoningBlock?)
  }

  /** Which events belong to a block depends on its index and kind alone. */
  lemma {:induction false} SameForKind(a: Block, b: Block, events: seq<Event>)
    requires SameKind(a, b) && forall e :: e in events ==> Leaves(a, e)
    ensures OwnParts(a, events) == OwnParts(b, events)
    ensures forall e :: e in events ==> Leaves(b, e)
    decreases |events|
  {
    if events != [] {
      SameForKind(a, b, events[1..]);
      assert Leaves(a, events[0]);
      forall e | e in events
        ensures Leaves(b, e)
      {
        assert e == events[0] || e in events[1..];
      }
    }
  }

  function Texts(index: int, block: StartBlock, events: seq<Event>): string
    requires !block.OtherStart?
  {
    Joined(OwnParts(Kind(index, block), events))
  }

  /** The events after the start leave the block open. */
  predicate StaysOpen(index: int, block: StartBlock, events: seq<Event>) {
    !block.OtherStart? && forall e :: e in events ==> Leaves(Kind(index, block), e)
  }

  function AfterStart(env: Env, before: seq<Event>, index: int, block: StartBlock): State {
    Process(env, After(env, INIT, before), BlockStart(Some(index), block)).0
  }

  /** The state in front of the stop of a block. */
  function BeforeStop(env: Env, before: seq<Event>, index: int, block: StartBlock, events: seq<Event>): State {
    After(env, AfterStart(env, before, index, block), events)
  }

  lemma NotEndedBefore(env: Env, s: State, events: seq<Event>)
    requires !After(env, s, events).terminal
    ensures !s.terminal
  {
    if s.terminal {
      TerminalStays(env, s, events);
    }
  }

  lemma StartNotEnded(env: Env, s: State, e: Event)
    requires !Process(env, s, e).0.terminal
    ensures !s.terminal
  {
  }

  lemma OpenBlockCollects(env: Env, t: State, kind: Block, b: Block, events: seq<Event>)
    requires SameKind(kind, b) && (forall e :: e in events ==> Leaves(kind, e))
    requires Holds(t, b) && !After(env, t, events).terminal
    ensures Holds(After(env, t, events), Grown(b, OwnParts(kind, events)))
  {
    SameForKind(kind, b, events);
    BlockCollectsItsParts(env, t, b, events);
  }

  /** The start of the block announces it at a slot. */
  predicate Announces(env: Env, before: seq<Event>, index: int, block: StartBlock, slot: nat)
    requires !block.OtherStart?
  {
    ItemAdded(slot, Announced(NewBlock(env, index, slot, OpeningOf(block))))
    in Process(env, After(env, INIT, before), BlockStart(Some(index), block)).1
  }

  lemma OpenAtAnnounces(env: Env, s: State, index: int, o: Opening)
    requires !OpenAt(env, s, index, o).0.terminal
    ensures var (t, outs) := OpenAt(env, s, index, o);
            t.slots != [] && ItemAdded(|t.slots| - 1, Announced(NewBlock(env, index, |t.slots| - 1, o))) in outs
  {
    var (s1, out1) := CompleteAt(env, s, index);
    var more := OpeningOut(NewBlock(env, index, |s1.slots|, o));
    assert more[0] in more && more[0] in out1 + more;
  }

  lemma StartAnnounces(env: Env, s: State, index: int, block: StartBlock)
    requires !s.terminal && !block.OtherStart?
    requires !Process(env, s, BlockStart(Some(index), block)).0.terminal
    ensures var (t, outs) := Process(env, s, BlockStart(Some(index), block));
            && t.slots != []
            && ItemAdded(|t.slots| - 1, Announced(NewBlock(env, index, |t.slots| - 1, OpeningOf(block)))) in outs
  {
    var s1, o := EnsureStarted(s).0, OpeningOf(block);
    StartOpens(env, s, index, block);
    OpenAtAnnounces(env, s1, index, o);
    AmongBoth(EnsureStarted(s).1, OpenAt(env, s1, index, o).1);
  }

  lemma AmongBoth(a: seq<Out>, b: seq<Out>)
    ensures forall x :: x in b ==> x in a + b
  {
  }

  /** What a start does that does not end the stream. */
  lemma BlockBegins(env: Env, s: State, index: int, block: StartBlock) returns (slot: nat)
    requires Tidy(s) && !block.OtherStart? && !Process(env, s, BlockStart(Some(index), block)).0.terminal
    ensures var (t, outs) := Process(env, s, BlockStart(Some(index), block));
            var b := NewBlock(env, index, slot, OpeningOf(block));
            Holds(t, b) && ItemAdded(slot, Announced(b)) in outs
  {
    StartNotEnded(env, s, BlockStart(Some(index), block));
    StartHolds(env, s, index, block);
    StartAnnounces(env, s, index, block);
    slot := |Process(env, s, BlockStart(Some(index), block)).0.slots| - 1;
  }

  lemma LifeOfABlock(env: Env, before: seq<Event>, index: int, block: StartBlock, events: seq<Event>)
    returns (slot: nat)
    requires StaysOpen(index, block, events)
    requires !BeforeStop(env, before, index, block, events).terminal
    ensures Holds(BeforeStop(env, before, index, block, events),
                  Grown(NewBlock(env, index, slot, OpeningOf(block)), OwnParts(Kind(index, block), events)))
    ensures Announces(env, before, index, block, slot)
  {
    var s := After(env, INIT, before);
    AfterIsTidy(env, INIT, before);
    var t := AfterStart(env, before, index, block);
    NotEndedBefore(env, t, events);
    slot := BlockBegins(env, s, index, block);
    OpenBlockCollects(env, t, Kind(index, block), NewBlock(env, index, slot, OpeningOf(block)), events);
  }

  lemma JoinedGrown(b: Block, parts: seq<string>)
    ensures Joined(Grown(b, parts).parts) == Joined(b.parts) + Joined(parts)
  {
    FlatMapAppend((part: string) => part, b.parts, parts);
  }

  predicate EndsWith(outs: seq<Out>, slot: nat, item: Item) {
    outs != [] && outs[|outs| - 1] == ItemDone(slot, item)
  }

  function StopAt(env: Env, s: State, index: int): (State, seq<Out>) {
    Process(env, s, BlockStop(Some(index)))
  }

  lemma StopCompletes(env: Env, s: State, b: Block)
    requires Holds(s, b) && !s.terminal
    ensures var rest := EnsureStarted(s).0.(active := Without(s.active, FindBlock(s.active, b.index)));
            && StopAt(env, s, b.index).0 == Complete(env, rest, b).0
            && StopAt(env, s, b.index).1 == EnsureStarted(s).1 + Complete(env, rest, b).1
  {
  }

  /** From its start to its stop, whatever happens at other indices before and in between, a
      text block becomes the message with its first text and then all texts of its index. */
  lemma TextBlockBecomesMessage(env: Env, before: seq<Event>, index: int, text: string, events: seq<Event>)
    returns (slot: nat)
    requires StaysOpen(index, TextStart(text), events)
    requires !BeforeStop(env, before, index, TextStart(text), events).terminal
    ensures EndsWith(StopAt(env, BeforeStop(env, before, index, TextStart(text), events), index).1, slot,
                     Message(Completed, [text + Texts(index, TextStart(text), events)]))
    ensures Announces(env, before, index, TextStart(text), slot)
  {
    slot := LifeOfABlock(env, before, index, TextStart(text), events);
    var b := NewBlock(env, index, slot, OpenText(text));
    var parts := OwnParts(Kind(index, TextStart(text)), events);
    JoinedOne(text);
    JoinedGrown(b, parts);
    StopCompletes(env, BeforeStop(env, before, index, TextStart(text), events), Grown(b, parts));
  }

  /** Thinking becomes a reasoning item in the same way; redacted thinking keeps its data
      whatever text is sent to its index. */
  lemma ThinkingBlockBecomesReasoning(env: Env, before: seq<Event>, index: int, block: StartBlock, events: seq<Event>)
    returns (slot: nat)
    requires block.ThinkingStart? || block.RedactedStart?
    requires StaysOpen(index, block, events)
    requires !BeforeStop(env, before, index, block, events).terminal
    ensures EndsWith(StopAt(env, BeforeStop(env, before, index, block, events), index).1, slot,
                     if block.RedactedStart? then Encrypted(Completed, block.data)
                     else Reasoning(Completed, block.thinking + Texts(index, block, events)))
    ensures Announces(env, before, index, block, slot)
  {
    slot := LifeOfABlock(env, before, index, block, events);
    var b := NewBlock(env, index, slot, OpeningOf(block));
    var parts := OwnParts(Kind(index, block), events);
    JoinedOne(if block.ThinkingStart? then block.thinking else "");
    JoinedGrown(b, parts);
    StopCompletes(env, BeforeStop(env, before, index, block, events), Grown(b, parts));
  }

  /** The stop of a function's block, by the text of its fragments. */
  lemma FunctionStop(env: Env, s: State, b: Block, raw: string)
    requires Holds(s, b) && !s.terminal && b.ToolBlock? && b.tool.kind == FunctionTool && raw == Joined(b.parts)
    ensures var (t, outs) := StopAt(env, s, b.index);
            var parsed := env.parse(if raw == "" then "{}" else raw);
            if parsed.Some? then EndsWith(outs, b.slot, ToolItem(b, Completed, parsed.value)) && !t.terminal
            else t.terminal && outs != [] && outs[|outs| - 1] == ResponseFailed(Payload(t), INVALID_ARGUMENTS)
  {
    StopCompletes(env, s, b);
    var rest := EnsureStarted(s).0.(active := Without(s.active, FindBlock(s.active, b.index)));
    FunctionEnd(env, rest, b);
  }

  lemma FunctionEnd(env: Env, s: State, b: Block)
    requires !s.terminal && b.ToolBlock? && b.tool.kind == FunctionTool
    ensures var (t, outs) := Complete(env, s, b);
            var parsed := env.parse(if Joined(b.parts) == "" then "{}" else Joined(b.parts));
            if parsed.Some? then EndsWith(outs, b.slot, ToolItem(b, Completed, parsed.value)) && !t.terminal
            else t.terminal && outs == [ResponseFailed(Payload(t), INVALID_ARGUMENTS)]
  {
  }

  /** All text of a tool: its initial input, where that counts, and its fragments. */
  function ToolText(env: Env, index: int, block: StartBlock, events: seq<Event>): string
    requires block.ToolStart?
  {
    StartText(env, block) + Texts(index, block, events)
  }

  /** The finished call item of a tool block. */
  function CalledItem(env: Env, slot: nat, block: StartBlock, body: string): Item
    requires block.ToolStart?
  {
    var tool := env.identity(block.name);
    var namespace := if tool.namespace == Some("") then None else tool.namespace;
    var callId := if block.id == "" then env.newCallId(slot) else block.id;
    if tool.kind == CustomTool then CustomCall(Completed, callId, tool.name, namespace, body)
    else FunctionCall(Completed, callId, tool.name, namespace, body)
  }

  /** What a tool block has become in front of its stop. */
  lemma ToolBlockGrew(env: Env, before: seq<Event>, index: int, block: StartBlock, events: seq<Event>)
    returns (b: Block)
    requires block.ToolStart? && StaysOpen(index, block, events)
    requires !BeforeStop(env, before, index, block, events).terminal
    ensures Holds(BeforeStop(env, before, index, block, events), b)
    ensures b.ToolBlock? && b.index == index && b.tool == env.identity(block.name)
    ensures Joined(b.parts) == ToolText(env, index, block, events)
    ensures forall body :: ToolItem(b, Completed, body) == CalledItem(env, b.slot, block, body)
    ensures Announces(env, before, index, block, b.slot)
  {
    var slot := LifeOfABlock(env, before, index, block, events);
    var begun := NewBlock(env, index, slot, OpeningOf(block));
    var parts := OwnParts(Kind(index, block), events);
    b := Grown(begun, parts);
    JoinedGrown(begun, parts);
    FirstOfTool(env, index, slot, block);
  }

  function StartText(env: Env, block: StartBlock): string
    requires block.ToolStart?
  {
    var custom := env.identity(block.name).kind == CustomTool;
    if block.input.ObjectInput? || (custom && block.input.OtherInput?) then block.input.json else ""
  }

  lemma FirstOfTool(env: Env, index: int, slot: nat, block: StartBlock)
    requires block.ToolStart?
    ensures Joined(NewBlock(env, index, slot, OpeningOf(block)).parts) == StartText(env, block)
  {
    if block.input.ObjectInput? || block.input.OtherInput? {
      FlatMapOne((part: string) => part, block.input.json);
    }
  }

  /** The call of a function becomes an item with the arguments its fragments parse to, and ends
      the stream as failed if they do not parse. */
  lemma FunctionBlockBecomesCall(env: Env, before: seq<Event>, index: int, block: StartBlock, events: seq<Event>)
    returns (slot: nat)
    requires block.ToolStart? && env.identity(block.name).kind == FunctionTool
    requires StaysOpen(index, block, events)
    requires !BeforeStop(env, before, index, block, events).terminal
    ensures var (t, outs) := StopAt(env, BeforeStop(env, before, index, block, events), index);
            var raw := ToolText(env, index, block, events);
            var parsed := env.parse(if raw == "" then "{}" else raw);
            if parsed.Some? then EndsWith(outs, slot, CalledItem(env, slot, block, parsed.value)) && !t.terminal
            else t.terminal && outs != [] && outs[|outs| - 1] == ResponseFailed(Payload(t), INVALID_ARGUMENTS)
    ensures Announces(env, before, index, block, slot)
  {
    var b := ToolBlockGrew(env, before, index, block, events);
    slot := b.slot;
    FunctionStop(env, BeforeStop(env, before, index, block, events), b, Joined(b.parts));
  }

  /** The call of a custom tool becomes an item with the text of its fragments. */
  lemma CustomBlockBecomesCall(env: Env, before: seq<Event>, index: int, block: StartBlock, events: seq<Event>)
    returns (slot: nat)
    requires block.ToolStart? && env.identity(block.name).kind == CustomTool
    requires StaysOpen(index, block, events)
    requires !BeforeStop(env, before, index, block, events).terminal
    ensures EndsWith(StopAt(env, BeforeStop(env, before, index, block, events), index).1, slot,
                     CalledItem(env, slot, block, env.customText(ToolText(env, index, block, events))))
    ensures Announces(env, before, index, block, slot)
  {
    var b := ToolBlockGrew(env, before, index, block, events);
    slot := b.slot;
    CustomStop(env, BeforeStop(env, before, index, block, events), b, Joined(b.parts));
  }

  lemma CustomStop(env: Env, s: State, b: Block, raw: string)
    requires Holds(s, b) && !s.terminal && b.ToolBlock? && b.tool.kind == CustomTool && raw == Joined(b.parts)
    ensures EndsWith(StopAt(env, s, b.index).1, b.slot, ToolItem(b, Completed, env.customText(raw)))
  {
    StopCompletes(env, s, b);
  }

  // ---------------------------------------------------------------- what acceptance implies

  function AddedSlot(out: Out): seq<nat> {
    if out.ItemAdded? then [out.slot] else []
  }

  predicate IsEnd(out: Out) {
    out.ResponseCompleted? || out.ResponseFailed?
  }

  function UpTo(lo: nat, hi: nat): seq<nat>
    requires lo <= hi
    decreases hi - lo
  {
    if lo == hi then [] else [lo] + UpTo(lo + 1, hi)
  }

  /** The items finished at a slot. */
  function DoneAt(slot: nat, out: Out): seq<Item> {
    if out.ItemDone? && out.slot == slot then [out.item] else []
  }

  function DoneIn(slot: nat, outs: seq<Out>): seq<Item> {
    FlatMap((out: Out) => DoneAt(slot, out), outs)
  }

  lemma ReadKeepsShape(env: Env, items: seq<Seen>, out: Out, items': seq<Seen>, slot: nat)
    requires Read(env, Reading(items), out) == Some(Reading(items'))
    ensures !IsEnd(out) && !out.Created?
    ensures |items'| == |items| + |AddedSlot(out)| && (out.ItemAdded? ==> out.slot == |items|)
    ensures DoneHere(items', slot) == DoneHere(items, slot) + DoneAt(slot, out)
  {
  }

  /** The finished item a reader has seen at a slot. */
  function DoneHere(items: seq<Seen>, slot: nat): seq<Item> {
    if slot < |items| then SlotItem(items[slot].done) else []
  }

  predicate HasShape(outs: seq<Out>) {
    && outs != [] && IsEnd(outs[|outs| - 1])
    && forall k :: 0 <= k < |outs| - 1 ==> !IsEnd(outs[k])
  }

  lemma {:induction false} ReadingShape(env: Env, items: seq<Seen>, outs: seq<Out>) returns (n: nat)
    requires var r := ReadAll(env, Reading(items), outs); r.Some? && r.value.Ended?
    ensures HasShape(outs) && |items| <= n && FlatMap(AddedSlot, outs) == UpTo(|items|, n)
    decreases |outs|
  {
    var out := outs[0];
    var r := Read(env, Reading(items), out).value;
    if r.Ended? {
      assert outs == [out];
      FlatMapOne(AddedSlot, out);
      n := |items|;
    } else {
      ReadKeepsShape(env, items, out, r.items, 0);
      n := ReadingShape(env, r.items, outs[1..]);
      ShapeBehind(outs);
    }
  }

  lemma {:induction false} NoneCreated(env: Env, items: seq<Seen>, outs: seq<Out>)
    requires var r := ReadAll(env, Reading(items), outs); r.Some? && r.value.Ended?
    ensures forall out :: out in outs ==> !out.Created?
    decreases |outs|
  {
    var r := Read(env, Reading(items), outs[0]).value;
    assert outs == [outs[0]] + outs[1..];
    if r.Reading? {
      NoneCreated(env, r.items, outs[1..]);
    }
  }

  lemma AllDoneHere(items: seq<Seen>, slot: nat)
    requires AllDone(items) && slot < |items|
    ensures |DoneHere(items, slot)| == 1
  {
  }

  /** The finished items at a slot: seen already, and still to come. */
  function DoneTotal(items: seq<Seen>, outs: seq<Out>, slot: nat): seq<Item> {
    DoneHere(items, slot) + DoneIn(slot, outs)
  }

  lemma DoneTotalStays(env: Env, items: seq<Seen>, outs: seq<Out>, slot: nat, items': seq<Seen>)
    requires outs != [] && Read(env, Reading(items), outs[0]) == Some(Reading(items'))
    ensures DoneTotal(items, outs, slot) == DoneTotal(items', outs[1..], slot)
    ensures |items'| + |FlatMap(AddedSlot, outs[1..])| == |items| + |FlatMap(AddedSlot, outs)|
  {
    ReadKeepsShape(env, items, outs[0], items', slot);
    ConcatAssoc(DoneHere(items, slot), DoneAt(slot, outs[0]), DoneIn(slot, outs[1..]));
  }

  lemma DoneAtEnd(env: Env, items: seq<Seen>, outs: seq<Out>, slot: nat)
    requires outs != [] && Read(env, Reading(items), outs[0]).Some? && IsEnd(outs[0]) && outs[1..] == []
    ensures |DoneTotal(items, outs, slot)| <= 1 && FlatMap(AddedSlot, outs) == []
    ensures outs[0].ResponseCompleted? && slot < |items| ==> |DoneTotal(items, outs, slot)| == 1
  {
    assert outs == [outs[0]];
    FlatMapOne((o: Out) => DoneAt(slot, o), outs[0]);
    FlatMapOne(AddedSlot, outs[0]);
    if outs[0].ResponseCompleted? && slot < |items| {
      AllDoneHere(items, slot);
    }
  }

  lemma EndIsRead(env: Env, items: seq<Seen>, out: Out)
    requires Read(env, Reading(items), out).Some?
    ensures Read(env, Reading(items), out).value.Ended? <==> IsEnd(out)
  {
  }

  lemma {:induction false} DoneOnce(env: Env, items: seq<Seen>, outs: seq<Out>, slot: nat, n: nat)
    requires var r := ReadAll(env, Reading(items), outs); r.Some? && r.value.Ended?
    requires n == |items| + |FlatMap(AddedSlot, outs)|
    ensures |DoneTotal(items, outs, slot)| <= 1
    ensures outs[|outs| - 1].ResponseCompleted? && slot < n ==> |DoneTotal(items, outs, slot)| == 1
    decreases |outs|
  {
    EndIsRead(env, items, outs[0]);
    var r := Read(env, Reading(items), outs[0]).value;
    if r.Ended? {
      DoneAtEnd(env, items, outs, slot);
    } else {
      var rest := outs[1..];
      DoneTotalStays(env, items, outs, slot, r.items);
      DoneOnce(env, r.items, rest, slot, n);
      assert rest != [] && outs[|outs| - 1] == rest[|rest| - 1];
    }
  }

  /** In every translated stream the creation is first and the only one, exactly the last event
      ends it, the slots of the announced items count up from zero, no item is finished twice,
      and if the stream ends as completed each announced item was finished. */
  lemma EveryStreamHasShape(env: Env, events: seq<Event>, slot: nat) returns (n: nat)
    ensures var outs := Drive(env, INIT, events);
            && HasShape(outs) && outs[0].Created? && (forall k :: 1 <= k < |outs| ==> !outs[k].Created?)
            && FlatMap(AddedSlot, outs) == UpTo(0, n)
            && |DoneIn(slot, outs)| <= 1
            && (outs[|outs| - 1].ResponseCompleted? && slot < n ==> |DoneIn(slot, outs)| == 1)
  {
    EveryStreamIsAccepted(env, events);
    var outs := Drive(env, INIT, events);
    var rest := outs[1..];
    assert Read(env, Waiting, outs[0]) == Some(Reading([]));
    n := ReadingShape(env, [], rest);
    NoneCreated(env, [], rest);
    UpToLength(0, n);
    DoneOnce(env, [], rest, slot, n);
    assert [] + DoneIn(slot, rest) == DoneIn(slot, rest);
    forall k | 1 <= k < |outs|
      ensures !outs[k].Created?
    {
      assert outs[k] == rest[k - 1] && rest[k - 1] in rest;
    }
    ShapeBehind(outs);
  }

  lemma ShapeBehind(outs: seq<Out>)
    requires outs != [] && !IsEnd(outs[0]) && HasShape(outs[1..])
    ensures HasShape(outs)
  {
    forall k | 0 <= k < |outs| - 1
      ensures !IsEnd(outs[k])
    {
      if k > 0 {
        assert outs[k] == outs[1..][k - 1];
      }
    }
  }

  lemma {:induction false} UpToLength(lo: nat, hi: nat)
    requires lo <= hi
    ensures |UpTo(lo, hi)| == hi - lo
    decreases hi - lo
  {
    if lo < hi {
      UpToLength(lo + 1, hi);
    }
  }
}
