/** What a client can rely on: a reader that checks every emitted event against all earlier ones
    accepts the stream of the assembler, whatever Anthropic events it was made from. The proof
    rests on what the reader and the assembler know of the same slot, after every event and in
    every order of events. */
module AssemblerContract {
  import opened Text
  import opened ToolNames
  import opened Assembler

  // The reader knows each item by its slot, from its announcement over its deltas to the finished
  // item. The slot invariant says what the assembler and the reader know of the same slot: it is
  // empty exactly if one active block owns it, and what the reader has seen of it is what the
  // block holds; otherwise it holds the finished item.

  // ---------------------------------------------------------------- the reader

  /** What a client knows of one output item: how it was announced, the text its deltas add up
      to, the closing text if it came, and the finished item. */
  datatype Seen = Seen(added: Item, partOpen: bool, text: string, closed: Option<string>, done: Option<Item>)

  datatype Reader = Waiting | Reading(items: seq<Seen>) | Ended(completed: bool, response: Response)

  predicate IsAnnouncement(item: Item) {
    match item
    case Message(status, parts) => status == InProgress && parts == []
    case Reasoning(status, text) => status == InProgress && text == ""
    case Encrypted(status, _) => status == InProgress
    case FunctionCall(status, _, _, _, arguments) => status == InProgress && arguments == ""
    case CustomCall(status, _, _, _, input) => status == InProgress && input == ""
  }

  predicate IsReasoning(item: Item) {
    item.Reasoning? || item.Encrypted?
  }

  predicate Live(items: seq<Seen>, slot: nat) {
    slot < |items| && items[slot].done.None?
  }

  /** The finished item is the announced one with exactly the text of its deltas; encrypted
      reasoning keeps its data instead, and the arguments of a function call are arguments that
      parsed. */
  ghost predicate Finishes(env: Env, seen: Seen, item: Item) {
    match seen.added
    case Message(_, _) =>
      item == Message(Completed, [seen.text]) && seen.closed == Some(seen.text) && !seen.partOpen
    case Reasoning(_, _) =>
      item == Reasoning(Completed, seen.text) && (seen.text != "" ==> seen.closed == Some(seen.text))
    case Encrypted(_, data) =>
      item == Encrypted(Completed, data) && (seen.text != "" ==> seen.closed == Some(seen.text))
    case FunctionCall(_, callId, name, namespace, _) =>
      && item == FunctionCall(Completed, callId, name, namespace, seen.text)
      && seen.closed == Some(seen.text)
      && (exists raw :: env.parse(raw) == Some(seen.text))
    case CustomCall(_, callId, name, namespace, _) =>
      item == CustomCall(Completed, callId, name, namespace, seen.text) && seen.closed == Some(seen.text)
  }

  function DoneItem(seen: Seen): seq<Item> {
    SlotItem(seen.done)
  }

  /** The finished items in the order of their slots. */
  function DoneItems(items: seq<Seen>): seq<Item> {
    FlatMap(DoneItem, items)
  }

  predicate AllDone(items: seq<Seen>) {
    forall k :: 0 <= k < |items| ==> items[k].done.Some?
  }

  function AddText(seen: Seen, text: string): Seen {
    seen.(text := seen.text + text)
  }

  function Close(seen: Seen): Seen {
    seen.(closed := Some(seen.text))
  }

  /** A delta needs a live item of its kind whose text is not closed, and it is not empty. */
  predicate TakesDelta(items: seq<Seen>, slot: nat, text: string) {
    Live(items, slot) && items[slot].closed.None? && text != ""
  }

  predicate TakesClose(items: seq<Seen>, slot: nat, text: string) {
    Live(items, slot) && items[slot].closed.None? && text == items[slot].text
  }

  /** One event. No result means that the reader rejects the stream. */
  ghost function Read(env: Env, r: Reader, out: Out): Option<Reader> {
    match r
    case Waiting => if out.Created? && out.response.output == [] then Some(Reading([])) else None
    case Ended(_, _) => None
    case Reading(items) =>
      match out
      case Created(_) => None
      case ItemAdded(slot, item) =>
        if slot == |items| && IsAnnouncement(item) then Some(Reading(items + [Seen(item, false, "", None, None)]))
        else None
      case PartAdded(slot) =>
        if Live(items, slot) && items[slot].added.Message? && !items[slot].partOpen && items[slot].text == ""
        then Some(Reading(items[slot := items[slot].(partOpen := true)])) else None
      case TextDelta(slot, text) =>
        if TakesDelta(items, slot, text) && items[slot].added.Message? && items[slot].partOpen
        then Some(Reading(items[slot := AddText(items[slot], text)])) else None
      case TextDone(slot, text) =>
        if TakesClose(items, slot, text) && items[slot].added.Message? && items[slot].partOpen
        then Some(Reading(items[slot := Close(items[slot])])) else None
      case PartDone(slot, text) =>
        if Live(items, slot) && items[slot].partOpen && items[slot].closed == Some(text)
        then Some(Reading(items[slot := items[slot].(partOpen := false)])) else None
      case ReasoningDelta(slot, text) =>
        if TakesDelta(items, slot, text) && IsReasoning(items[slot].added)
        then Some(Reading(items[slot := AddText(items[slot], text)])) else None
      case ReasoningDone(slot, text) =>
        if TakesClose(items, slot, text) && IsReasoning(items[slot].added) && text != ""
        then Some(Reading(items[slot := Close(items[slot])])) else None
      case ArgumentsDelta(slot, text) =>
        if TakesDelta(items, slot, text) && items[slot].added.FunctionCall?
        then Some(Reading(items[slot := AddText(items[slot], text)])) else None
      case ArgumentsDone(slot, text) =>
        if TakesClose(items, slot, text) && items[slot].added.FunctionCall?
        then Some(Reading(items[slot := Close(items[slot])])) else None
      case InputDelta(slot, text) =>
        if TakesDelta(items, slot, text) && items[slot].added.CustomCall?
        then Some(Reading(items[slot := AddText(items[slot], text)])) else None
      case InputDone(slot, text) =>
        if TakesClose(items, slot, text) && items[slot].added.CustomCall?
        then Some(Reading(items[slot := Close(items[slot])])) else None
      case ItemDone(slot, item) =>
        if Live(items, slot) && Finishes(env, items[slot], item)
        then Some(Reading(items[slot := items[slot].(done := Some(item))])) else None
      case ResponseCompleted(response) =>
        if AllDone(items) && response.output == DoneItems(items) then Some(Ended(true, response)) else None
      case ResponseFailed(response, _) =>
        if response.output == DoneItems(items) then Some(Ended(false, response)) else None
  }

  ghost function ReadAll(env: Env, r: Reader, outs: seq<Out>): Option<Reader>
    decreases |outs|
  {
    if outs == [] then Some(r)
    else
      match Read(env, r, outs[0])
      case None => None
      case Some(r') => ReadAll(env, r', outs[1..])
  }

  /** The reader gets through the whole translated stream and finds its end. */
  ghost predicate ClientAccepts(env: Env, events: seq<Event>) {
    var r := ReadAll(env, Waiting, Drive(env, INIT, events));
    r.Some? && r.value.Ended?
  }

  /** The main theorem: for every sequence of Anthropic events, well formed or not, a client
      accepts every emitted event and reaches the end exactly with the last one. */
  lemma EveryStreamIsAccepted(env: Env, events: seq<Event>)
    ensures ClientAccepts(env, events)
  {
    DriveIsAccepted(env, INIT, Waiting, events);
  }

  lemma {:induction false} ReadAppend(env: Env, r: Reader, a: seq<Out>, b: seq<Out>)
    ensures ReadAll(env, r, a + b)
            == if ReadAll(env, r, a).None? then None else ReadAll(env, ReadAll(env, r, a).value, b)
    decreases |a|
  {
    if a == [] {
      assert a + b == b;
    } else {
      assert (a + b)[1..] == a[1..] + b;
      match Read(env, r, a[0])
      case None =>
      case Some(r') => ReadAppend(env, r', a[1..], b);
    }
  }

  lemma ReadOne(env: Env, r: Reader, out: Out)
    ensures ReadAll(env, r, [out]) == Read(env, r, out)
  {
    assert [out][1..] == [];
  }

  lemma ReadTwo(env: Env, r: Reader, a: Out, b: Out, r1: Reader)
    requires Read(env, r, a) == Some(r1)
    ensures ReadAll(env, r, [a, b]) == Read(env, r1, b)
  {
    assert [a, b] == [a] + [b];
    ReadAppend(env, r, [a], [b]);
    ReadOne(env, r, a);
    ReadOne(env, r1, b);
  }

  // ---------------------------------------------------------------- the slot invariant

  /** What the reader has seen of an active block. */
  function Shown(b: Block): Seen {
    match b
    case TextBlock(_, _, parts) => Seen(Announced(b), true, Joined(parts), None, None)
    case ReasoningBlock(_, _, parts, _) => Seen(Announced(b), false, Joined(parts), None, None)
    case ToolBlock(_, _, _, _, _) => Seen(Announced(b), false, "", None, None)
  }

  /** The active blocks, in the order of their slots, are what the reader sees there. */
  ghost predicate Matches(items: seq<Seen>, lo: nat, blocks: seq<Block>)
    decreases |blocks|
  {
    blocks != [] ==>
      && lo <= blocks[0].slot < |items|
      && items[blocks[0].slot] == Shown(blocks[0])
      && Matches(items, blocks[0].slot + 1, blocks[1..])
  }

  function Slots(blocks: seq<Block>): set<nat> {
    if blocks == [] then {} else {blocks[0].slot} + Slots(blocks[1..])
  }

  /** A slot is empty exactly when an active block owns it; otherwise it holds the finished
      item the reader has seen. */
  ghost predicate SlotAgrees(slots: seq<Option<Item>>, items: seq<Seen>, owned: set<nat>, k: nat) {
    k < |slots| && k < |items| ==> items[k].done == slots[k] && (slots[k].None? <==> k in owned)
  }

  ghost predicate Agrees(s: State, items: seq<Seen>, owned: set<nat>) {
    |items| == |s.slots| && forall k: nat :: SlotAgrees(s.slots, items, owned, k)
  }

  ghost predicate Inv(s: State, items: seq<Seen>) {
    s.started && Matches(items, 0, s.active) && Agrees(s, items, Slots(s.active))
  }

  lemma {:induction false} SlotsBetween(items: seq<Seen>, lo: nat, blocks: seq<Block>, k: nat)
    requires Matches(items, lo, blocks) && k in Slots(blocks)
    ensures lo <= k < |items|
    decreases |blocks|
  {
    if k != blocks[0].slot {
      SlotsBetween(items, blocks[0].slot + 1, blocks[1..], k);
    }
  }

  lemma {:induction false} MatchesWeaken(items: seq<Seen>, lo: nat, lo': nat, blocks: seq<Block>)
    requires Matches(items, lo, blocks) && lo' <= lo
    ensures Matches(items, lo', blocks)
  {
  }

  /** Changing the reader's view of a slot that no block owns. */
  lemma {:induction false} MatchesElsewhere(items: seq<Seen>, lo: nat, blocks: seq<Block>, k: nat, seen: Seen)
    requires Matches(items, lo, blocks) && k < |items| && k !in Slots(blocks)
    ensures Matches(items[k := seen], lo, blocks)
    decreases |blocks|
  {
    if blocks != [] {
      MatchesElsewhere(items, blocks[0].slot + 1, blocks[1..], k, seen);
    }
  }

  lemma {:induction false} MatchesLonger(items: seq<Seen>, lo: nat, blocks: seq<Block>, seen: Seen)
    requires Matches(items, lo, blocks)
    ensures Matches(items + [seen], lo, blocks)
    decreases |blocks|
  {
    if blocks != [] {
      MatchesLonger(items, blocks[0].slot + 1, blocks[1..], seen);
    }
  }

  lemma {:induction false} MatchesSnoc(items: seq<Seen>, lo: nat, blocks: seq<Block>, b: Block)
    requires Matches(items, lo, blocks) && |items| == b.slot + 1 && items[b.slot] == Shown(b)
    requires lo <= b.slot && b.slot !in Slots(blocks)
    ensures Matches(items, lo, blocks + [b])
    ensures Slots(blocks + [b]) == Slots(blocks) + {b.slot}
    decreases |blocks|
  {
    if blocks == [] {
      assert blocks + [b] == [b] && [b][1..] == [];
    } else {
      assert (blocks + [b])[1..] == blocks[1..] + [b];
      MatchesSnoc(items, blocks[0].slot + 1, blocks[1..], b);
    }
  }

  lemma WithoutLater(blocks: seq<Block>, p: nat)
    requires 0 < p < |blocks|
    ensures Without(blocks, p)[0] == blocks[0] && Without(blocks, p)[1..] == Without(blocks[1..], p - 1)
  {
    assert Without(blocks, p) == [blocks[0]] + Without(blocks[1..], p - 1);
  }

  lemma {:induction false} SlotsWithout(items: seq<Seen>, lo: nat, blocks: seq<Block>, p: nat)
    requires Matches(items, lo, blocks) && p < |blocks|
    ensures blocks[p].slot !in Slots(Without(blocks, p)) && lo <= blocks[p].slot
    ensures Slots(blocks) == Slots(Without(blocks, p)) + {blocks[p].slot}
    decreases |blocks|
  {
    if p == 0 {
      assert Without(blocks, 0) == blocks[1..];
      if blocks[0].slot in Slots(blocks[1..]) {
        SlotsBetween(items, blocks[0].slot + 1, blocks[1..], blocks[0].slot);
      }
    } else {
      SlotsWithout(items, blocks[0].slot + 1, blocks[1..], p - 1);
      WithoutLater(blocks, p);
    }
  }

  /** Taking a block out. */
  lemma {:induction false} MatchesWithout(items: seq<Seen>, lo: nat, blocks: seq<Block>, p: nat)
    requires Matches(items, lo, blocks) && p < |blocks|
    ensures Matches(items, lo, Without(blocks, p))
    ensures blocks[p].slot < |items| && items[blocks[p].slot] == Shown(blocks[p])
    decreases |blocks|
  {
    if p == 0 {
      assert Without(blocks, 0) == blocks[1..];
      MatchesWeaken(items, blocks[0].slot + 1, lo, blocks[1..]);
    } else {
      MatchesWithout(items, blocks[0].slot + 1, blocks[1..], p - 1);
      WithoutLater(blocks, p);
    }
  }

  /** Changing a block and the reader's view of it together. */
  lemma {:induction false} MatchesUpdate(items: seq<Seen>, lo: nat, blocks: seq<Block>, p: nat, b: Block)
    requires Matches(items, lo, blocks) && p < |blocks| && b.slot == blocks[p].slot
    ensures b.slot < |items| && items[b.slot] == Shown(blocks[p])
    ensures Matches(items[b.slot := Shown(b)], lo, blocks[p := b])
    ensures Slots(blocks[p := b]) == Slots(blocks)
    decreases |blocks|
  {
    if p == 0 {
      if b.slot in Slots(blocks[1..]) {
        SlotsBetween(items, blocks[0].slot + 1, blocks[1..], b.slot);
      }
      MatchesElsewhere(items, blocks[0].slot + 1, blocks[1..], b.slot, Shown(b));
      assert blocks[0 := b][1..] == blocks[1..];
    } else {
      MatchesUpdate(items, blocks[0].slot + 1, blocks[1..], p - 1, b);
      assert blocks[p := b][1..] == blocks[1..][p - 1 := b];
      SlotOfMatch(items, blocks[0].slot + 1, blocks[1..], p - 1);
    }
  }

  lemma {:induction false} SlotOfMatch(items: seq<Seen>, lo: nat, blocks: seq<Block>, p: nat)
    requires Matches(items, lo, blocks) && p < |blocks|
    ensures lo <= blocks[p].slot < |items|
    decreases |blocks|
  {
    if p > 0 {
      SlotOfMatch(items, blocks[0].slot + 1, blocks[1..], p - 1);
    }
  }

  /** Blocks in the order of their slots are left alone by the sort of the flush. */
  lemma {:induction false} SortIsIdentity(items: seq<Seen>, lo: nat, blocks: seq<Block>)
    requires Matches(items, lo, blocks)
    ensures SortedBySlot(blocks) == blocks
    decreases |blocks|
  {
    if blocks != [] {
      SortIsIdentity(items, blocks[0].slot + 1, blocks[1..]);
      assert blocks == [blocks[0]] + blocks[1..];
    }
  }

  /** The output of a response is what the reader has seen finished. */
  lemma {:induction false} OutputIsDone(slots: seq<Option<Item>>, items: seq<Seen>)
    requires |slots| == |items| && forall k :: 0 <= k < |slots| ==> items[k].done == slots[k]
    ensures Output(slots) == DoneItems(items)
  {
    if slots != [] {
      forall k | 0 <= k < |slots| - 1
        ensures items[1..][k].done == slots[1..][k]
      {
        assert items[k + 1].done == slots[k + 1];
      }
      OutputIsDone(slots[1..], items[1..]);
    }
  }

  lemma AgreesOutput(s: State, items: seq<Seen>, owned: set<nat>)
    requires Agrees(s, items, owned)
    ensures Output(s.slots) == DoneItems(items)
  {
    forall k | 0 <= k < |s.slots|
      ensures items[k].done == s.slots[k]
    {
      assert SlotAgrees(s.slots, items, owned, k);
    }
    OutputIsDone(s.slots, items);
  }

  // ---------------------------------------------------------------- completing

  /** After an operation the reader either goes on, with the invariant, or has just read the end
      of a stream that ended. */
  ghost predicate Continues(s: State, r: Option<Reader>) {
    && r.Some?
    && (if s.terminal then r.value.Ended? && r.value.response == Payload(s)
        else r.value.Reading? && Inv(s, r.value.items))
  }

  /** A block that was taken out of the dictionary still has its slot for itself. */
  ghost predicate Taken(s: State, items: seq<Seen>, b: Block) {
    && s.started && Matches(items, 0, s.active)
    && b.slot !in Slots(s.active)
    && Agrees(s, items, Slots(s.active) + {b.slot})
    && b.slot < |items| && items[b.slot] == Shown(b)
  }

  lemma CommitAgrees(s: State, items: seq<Seen>, b: Block, seen: Seen, item: Item)
    requires Taken(s, items, b) && seen.done == Some(item)
    ensures Inv(Commit(s, b.slot, item), items[b.slot := seen])
  {
    var t, items' := Commit(s, b.slot, item), items[b.slot := seen];
    MatchesElsewhere(items, 0, s.active, b.slot, seen);
    forall k: nat
      ensures SlotAgrees(t.slots, items', Slots(s.active), k)
    {
      assert SlotAgrees(s.slots, items, Slots(s.active) + {b.slot}, k);
    }
  }

  lemma CompleteText(env: Env, s: State, items: seq<Seen>, b: Block)
    requires Taken(s, items, b) && b.TextBlock? && !s.terminal
    ensures var (t, outs) := Complete(env, s, b);
            !t.terminal && Continues(t, ReadAll(env, Reading(items), outs))
  {
    var k, text := b.slot, Joined(b.parts);
    var item := Message(Completed, [text]);
    var i0 := Shown(b);
    var i1 := Close(i0);
    var i2 := i1.(partOpen := false);
    var i3 := i2.(done := Some(item));
    var r1, r2, r3 := items[k := i1], items[k := i2], items[k := i3];
    assert Read(env, Reading(items), TextDone(k, text)) == Some(Reading(r1));
    assert r1[k := i2] == r2 && r2[k := i3] == r3;
    assert Read(env, Reading(r1), PartDone(k, text)) == Some(Reading(r2));
    assert Read(env, Reading(r2), ItemDone(k, item)) == Some(Reading(r3));
    ReadTwo(env, Reading(items), TextDone(k, text), PartDone(k, text), Reading(r1));
    ReadAppend(env, Reading(items), [TextDone(k, text), PartDone(k, text)], [ItemDone(k, item)]);
    ReadOne(env, Reading(r2), ItemDone(k, item));
    assert [TextDone(k, text), PartDone(k, text)] + [ItemDone(k, item)]
        == [TextDone(k, text), PartDone(k, text), ItemDone(k, item)];
    CommitAgrees(s, items, b, i3, item);
  }

  lemma InvIgnores(s: State, t: State, items: seq<Seen>)
    requires Inv(s, items) && t.active == s.active && t.slots == s.slots && t.started
    ensures Inv(t, items)
  {
    forall k: nat
      ensures SlotAgrees(t.slots, items, Slots(t.active), k)
    {
      assert SlotAgrees(s.slots, items, Slots(s.active), k);
    }
  }

  lemma CompleteReasoning(env: Env, s: State, items: seq<Seen>, b: Block)
    requires Taken(s, items, b) && b.ReasoningBlock? && !s.terminal
    ensures var (t, outs) := Complete(env, s, b);
            !t.terminal && Continues(t, ReadAll(env, Reading(items), outs))
  {
    var k, text := b.slot, Joined(b.parts);
    var item := ReasoningItem(b, Completed);
    var i1 := if text == "" then Shown(b) else Close(Shown(b));
    var i2 := i1.(done := Some(item));
    var r1, r2 := items[k := i1], items[k := i2];
    assert r1[k := i2] == r2;
    assert Read(env, Reading(r1), ItemDone(k, item)) == Some(Reading(r2));
    if text == "" {
      assert r1 == items;
      assert [] + [ItemDone(k, item)] == [ItemDone(k, item)];
      ReadOne(env, Reading(items), ItemDone(k, item));
    } else {
      assert Read(env, Reading(items), ReasoningDone(k, text)) == Some(Reading(r1));
      assert [ReasoningDone(k, text)] + [ItemDone(k, item)] == [ReasoningDone(k, text), ItemDone(k, item)];
      ReadTwo(env, Reading(items), ReasoningDone(k, text), ItemDone(k, item), Reading(r1));
    }
    CommitAgrees(s, items, b, i2, item);
    InvIgnores(Commit(s, k, item), Complete(env, s, b).0, r2);
  }

  /** A tool call shows its whole text in one delta, if there is any, and closes it at once. */
  lemma ReadToolEnd(env: Env, items: seq<Seen>, b: Block, body: string, delta: Out, close: Out, item: Item)
    requires b.ToolBlock? && b.slot < |items| && items[b.slot] == Shown(b)
    requires item == ToolItem(b, Completed, body)
    requires if b.tool.kind == CustomTool
             then delta == InputDelta(b.slot, body) && close == InputDone(b.slot, body)
             else delta == ArgumentsDelta(b.slot, body) && close == ArgumentsDone(b.slot, body)
                  && exists raw :: env.parse(raw) == Some(body)
    ensures var end := Close(AddText(Shown(b), body)).(done := Some(item));
            ReadAll(env, Reading(items), NonEmpty(delta, body) + [close, ItemDone(b.slot, item)])
            == Some(Reading(items[b.slot := end]))
  {
    var k := b.slot;
    var i1 := AddText(Shown(b), body);
    assert "" + body == body;
    var i2 := Close(i1);
    var i3 := i2.(done := Some(item));
    var r1, r2, r3 := items[k := i1], items[k := i2], items[k := i3];
    assert r1[k := i2] == r2 && r2[k := i3] == r3;
    assert Read(env, Reading(r1), close) == Some(Reading(r2));
    assert Read(env, Reading(r2), ItemDone(k, item)) == Some(Reading(r3));
    ReadTwo(env, Reading(r1), close, ItemDone(k, item), Reading(r2));
    if body == "" {
      assert r1 == items;
      assert [] + [close, ItemDone(k, item)] == [close, ItemDone(k, item)];
    } else {
      assert Read(env, Reading(items), delta) == Some(Reading(r1));
      ReadOne(env, Reading(items), delta);
      ReadAppend(env, Reading(items), [delta], [close, ItemDone(k, item)]);
    }
  }

  lemma ReadFailure(env: Env, s: State, items: seq<Seen>, owned: set<nat>, error: string)
    requires Agrees(s, items, owned)
    ensures var (t, outs) := Fail(s, error);
            t.terminal && Continues(t, ReadAll(env, Reading(items), outs))
  {
    AgreesOutput(s, items, owned);
    ReadOne(env, Reading(items), ResponseFailed(Payload(s), error));
  }

  lemma CompleteTool(env: Env, s: State, items: seq<Seen>, b: Block)
    requires Taken(s, items, b) && b.ToolBlock? && !s.terminal
    ensures var (t, outs) := Complete(env, s, b);
            Continues(t, ReadAll(env, Reading(items), outs))
  {
    var raw := if Joined(b.parts) == "" then "{}" else Joined(b.parts);
    if b.tool.kind == FunctionTool && env.parse(raw).None? {
      ReadFailure(env, s, items, Slots(s.active) + {b.slot}, INVALID_ARGUMENTS);
    } else {
      var custom := b.tool.kind == CustomTool;
      var body := if custom then env.customText(Joined(b.parts)) else env.parse(raw).value;
      var item := ToolItem(b, Completed, body);
      var delta := if custom then InputDelta(b.slot, body) else ArgumentsDelta(b.slot, body);
      var close := if custom then InputDone(b.slot, body) else ArgumentsDone(b.slot, body);
      assert !custom ==> env.parse(raw) == Some(body);
      ReadToolEnd(env, items, b, body, delta, close, item);
      CommitAgrees(s, items, b, Close(AddText(Shown(b), body)).(done := Some(item)), item);
    }
  }

  lemma CompleteContinues(env: Env, s: State, items: seq<Seen>, b: Block)
    requires Taken(s, items, b) && !s.terminal
    ensures var (t, outs) := Complete(env, s, b);
            Continues(t, ReadAll(env, Reading(items), outs))
  {
    match b
    case TextBlock(_, _, _) => CompleteText(env, s, items, b);
    case ReasoningBlock(_, _, _, _) => CompleteReasoning(env, s, items, b);
    case ToolBlock(_, _, _, _, _) => CompleteTool(env, s, items, b);
  }

  lemma TakeOut(s: State, items: seq<Seen>, p: nat)
    requires Inv(s, items) && p < |s.active|
    ensures Taken(s.(active := Without(s.active, p)), items, s.active[p])
  {
    MatchesWithout(items, 0, s.active, p);
    SlotsWithout(items, 0, s.active, p);
    var t := s.(active := Without(s.active, p));
    forall k: nat
      ensures SlotAgrees(t.slots, items, Slots(t.active) + {s.active[p].slot}, k)
    {
      assert SlotAgrees(s.slots, items, Slots(s.active), k);
    }
  }

  lemma CompleteAtContinues(env: Env, s: State, items: seq<Seen>, index: int)
    requires Inv(s, items) && !s.terminal
    ensures var (t, outs) := CompleteAt(env, s, index);
            Continues(t, ReadAll(env, Reading(items), outs))
  {
    var p := FindBlock(s.active, index);
    if p < |s.active| {
      TakeOut(s, items, p);
      CompleteContinues(env, s.(active := Without(s.active, p)), items, s.active[p]);
    }
  }

  // ---------------------------------------------------------------- the end of a stream

  lemma CompleteKeepsActive(env: Env, s: State, b: Block)
    ensures Complete(env, s, b).0.active == s.active
  {
  }

  lemma FirstIsTaken(s: State, items: seq<Seen>, lo: nat, blocks: seq<Block>)
    requires blocks != [] && s.started && Matches(items, lo, blocks) && Agrees(s, items, Slots(blocks))
    ensures Taken(s.(active := blocks[1..]), items, blocks[0])
  {
    var rest := s.(active := blocks[1..]);
    MatchesWeaken(items, lo, 0, blocks);
    MatchesWithout(items, 0, blocks, 0);
    SlotsWithout(items, 0, blocks, 0);
    assert Without(blocks, 0) == blocks[1..];
    forall k: nat
      ensures SlotAgrees(rest.slots, items, Slots(rest.active) + {blocks[0].slot}, k)
    {
      assert SlotAgrees(s.slots, items, Slots(blocks), k);
    }
  }

  /** Completing the blocks that are left, in the order of their slots. */
  lemma {:induction false} CompleteAllContinues(env: Env, s: State, items: seq<Seen>, lo: nat, blocks: seq<Block>)
    requires !s.terminal && s.started && s.active == []
    requires Matches(items, lo, blocks) && Agrees(s, items, Slots(blocks))
    ensures var (t, outs) := CompleteAll(env, s, blocks);
            && Continues(t, ReadAll(env, Reading(items), outs))
            && t.active == []
    decreases |blocks|
  {
    if blocks != [] {
      var b := blocks[0];
      var (t1, out1) := Complete(env, s, b);
      var rest := s.(active := blocks[1..]);
      FirstIsTaken(s, items, lo, blocks);
      CompleteContinues(env, rest, items, b);
      CompleteIgnoresActive(env, s, rest, b);
      CompleteKeepsActive(env, s, b);
      ReadAppend(env, Reading(items), out1, CompleteAll(env, t1, blocks[1..]).1);
      var r := ReadAll(env, Reading(items), out1).value;
      if !t1.terminal {
        CompleteAllContinues(env, t1, r.items, 0, blocks[1..]);
      } else {
        assert out1 + [] == out1;
      }
    }
  }

  lemma CompleteIgnoresActive(env: Env, s: State, t: State, b: Block)
    requires t == s.(active := t.active)
    ensures Complete(env, t, b) == (Complete(env, s, b).0.(active := t.active), Complete(env, s, b).1)
  {
  }

  lemma FlushContinues(env: Env, s: State, items: seq<Seen>)
    requires Inv(s, items) && !s.terminal
    ensures var (t, outs) := Flush(env, s);
            && Continues(t, ReadAll(env, Reading(items), outs))
            && t.active == []
  {
    SortIsIdentity(items, 0, s.active);
    var t := s.(active := []);
    forall k: nat
      ensures SlotAgrees(t.slots, items, Slots(s.active), k)
    {
      assert SlotAgrees(s.slots, items, Slots(s.active), k);
    }
    CompleteAllContinues(env, t, items, 0, s.active);
  }

  lemma ReadCompletion(env: Env, s: State, items: seq<Seen>)
    requires Agrees(s, items, {})
    ensures ReadAll(env, Reading(items), [ResponseCompleted(Payload(s))]) == Some(Ended(true, Payload(s)))
  {
    AgreesOutput(s, items, {});
    forall k | 0 <= k < |items|
      ensures items[k].done.Some?
    {
      assert SlotAgrees(s.slots, items, {}, k);
    }
    ReadOne(env, Reading(items), ResponseCompleted(Payload(s)));
  }

  lemma CompleteResponseContinues(env: Env, s: State, items: seq<Seen>)
    requires Inv(s, items) && !s.terminal
    ensures var (t, outs) := CompleteResponse(env, s);
            t.terminal && Continues(t, ReadAll(env, Reading(items), outs))
  {
    FlushContinues(env, s, items);
    var (s1, out1) := Flush(env, s);
    if !s1.terminal {
      var last := ResponseCompleted(Payload(s1));
      ReadAppend(env, Reading(items), out1, [last]);
      ReadCompletion(env, s1, ReadAll(env, Reading(items), out1).value.items);
    }
  }

  lemma FailResponseContinues(env: Env, s: State, items: seq<Seen>, message: string)
    requires Inv(s, items) && !s.terminal
    ensures var (t, outs) := FailResponse(env, s, message);
            t.terminal && Continues(t, ReadAll(env, Reading(items), outs))
  {
    FlushContinues(env, s, items);
    var (s1, out1) := Flush(env, s);
    if !s1.terminal {
      var seen := ReadAll(env, Reading(items), out1).value.items;
      ReadAppend(env, Reading(items), out1, Fail(s1, message).1);
      ReadFailure(env, s1, seen, {}, message);
    }
  }

  // ---------------------------------------------------------------- opening and deltas

  lemma ReadOpening(env: Env, items: seq<Seen>, b: Block)
    requires b.slot == |items|
    ensures ReadAll(env, Reading(items), OpeningOut(b)) == Some(Reading(items + [Shown(b)]))
  {
    var k := b.slot;
    var blank := Seen(Announced(b), false, "", None, None);
    var r0 := items + [blank];
    var added := ItemAdded(k, Announced(b));
    assert Read(env, Reading(items), added) == Some(Reading(r0));
    ReadOne(env, Reading(items), added);
    match b
    case TextBlock(_, _, parts) =>
      var text := Joined(parts);
      var delta := TextDelta(k, text);
      var r1 := items + [blank.(partOpen := true)];
      assert r0[k := blank.(partOpen := true)] == r1;
      assert Read(env, Reading(r0), PartAdded(k)) == Some(Reading(r1));
      assert "" + text == text;
      assert r1[k := Shown(b)] == items + [Shown(b)];
      ReadOne(env, Reading(r0), PartAdded(k));
      ReadOne(env, Reading(r1), delta);
      ReadAppend(env, Reading(r0), [PartAdded(k)], NonEmpty(delta, text));
      ReadAppend(env, Reading(items), [added], [PartAdded(k)] + NonEmpty(delta, text));
    case ReasoningBlock(_, _, parts, _) =>
      var text := Joined(parts);
      var delta := ReasoningDelta(k, text);
      assert "" + text == text;
      assert r0[k := Shown(b)] == items + [Shown(b)];
      ReadOne(env, Reading(r0), delta);
      ReadAppend(env, Reading(items), [added], NonEmpty(delta, text));
    case ToolBlock(_, _, _, _, _) =>
      assert [added] + [] == [added];
  }

  lemma OpenKeepsInv(s: State, items: seq<Seen>, b: Block)
    requires Inv(s, items) && b.slot == |s.slots|
    ensures Inv(s.(slots := s.slots + [None], active := s.active + [b]), items + [Shown(b)])
  {
    var seen := Shown(b);
    var t := s.(slots := s.slots + [None], active := s.active + [b]);
    MatchesLonger(items, 0, s.active, seen);
    if b.slot in Slots(s.active) {
      SlotsBetween(items, 0, s.active, b.slot);
    }
    MatchesSnoc(items + [seen], 0, s.active, b);
    forall k: nat
      ensures SlotAgrees(t.slots, items + [seen], Slots(t.active), k)
    {
      assert SlotAgrees(s.slots, items, Slots(s.active), k);
    }
  }

  lemma OpenAtContinues(env: Env, s: State, items: seq<Seen>, index: int, o: Opening)
    requires Inv(s, items) && !s.terminal
    ensures var (t, outs) := OpenAt(env, s, index, o);
            Continues(t, ReadAll(env, Reading(items), outs))
  {
    CompleteAtContinues(env, s, items, index);
    var (s1, out1) := CompleteAt(env, s, index);
    if !s1.terminal {
      var seen := ReadAll(env, Reading(items), out1).value.items;
      var b := NewBlock(env, index, |s1.slots|, o);
      ReadOpening(env, seen, b);
      ReadAppend(env, Reading(items), out1, OpeningOut(b));
      OpenKeepsInv(s1, seen, b);
    }
  }

  lemma ExtendKeepsInv(s: State, items: seq<Seen>, p: nat, text: string, seen: Seen)
    requires Inv(s, items) && p < |s.active|
    requires seen == Shown(WithPart(s.active[p], text))
    ensures s.active[p].slot < |items| && items[s.active[p].slot] == Shown(s.active[p])
    ensures Inv(Extend(s, p, text), items[s.active[p].slot := seen])
  {
    var b := WithPart(s.active[p], text);
    MatchesUpdate(items, 0, s.active, p, b);
    var t, items' := Extend(s, p, text), items[b.slot := seen];
    forall k: nat
      ensures SlotAgrees(t.slots, items', Slots(t.active), k)
    {
      assert SlotAgrees(s.slots, items, Slots(s.active), k);
    }
  }

  /** Text for an active block. A tool collects its arguments without a word to the client. */
  lemma AddAtContinues(env: Env, s: State, items: seq<Seen>, index: int, text: string)
    requires Inv(s, items) && !s.terminal
    ensures var (t, outs) := AddAt(s, index, text);
            Continues(t, ReadAll(env, Reading(items), outs))
  {
    var p := FindBlock(s.active, index);
    if p < |s.active| && (text != "" || s.active[p].ToolBlock?) {
      var b := s.active[p];
      var seen := Shown(WithPart(b, text));
      FlattenSnoc(b.parts, text);
      ExtendKeepsInv(s, items, p, text, seen);
      if b.ToolBlock? {
        assert seen == Shown(b);
        assert items[b.slot := seen] == items;
      } else {
        assert seen == AddText(Shown(b), text);
        ReadOne(env, Reading(items), FirstText(b, text)[0]);
      }
    }
  }

  lemma MoveContinues(env: Env, s: State, items: seq<Seen>, m: Move)
    requires Inv(s, items) && !s.terminal
    ensures var (t, outs) := Make(env, s, m);
            Continues(t, ReadAll(env, Reading(items), outs))
  {
    match m
    case Opens(index, o) => OpenAtContinues(env, s, items, index, o);
    case Adds(index, text) => AddAtContinues(env, s, items, index, text);
    case Nothing =>
  }

  lemma HandleContinues(env: Env, s: State, items: seq<Seen>, e: Event)
    requires Inv(s, items) && !s.terminal
    ensures var (t, outs) := Handle(env, s, e);
            Continues(t, ReadAll(env, Reading(items), outs))
  {
    match e
    case BlockStart(index, block) =>
      var (s1, m) := StartMove(s, index, block);
      InvIgnores(s, s1, items);
      MoveContinues(env, s1, items, m);
    case BlockDelta(index, delta) =>
      var (s1, m) := DeltaMove(s, index, delta);
      InvIgnores(s, s1, items);
      MoveContinues(env, s1, items, m);
    case BlockStop(index) =>
      if index.Some? {
        CompleteAtContinues(env, s, items, index.value);
      }
    case MessageDelta(_, _) => InvIgnores(s, Handle(env, s, e).0, items);
    case MessageStop => CompleteResponseContinues(env, s, items);
    case ErrorEvent(message) => FailResponseContinues(env, s, items, message);
    case OtherEvent =>
  }

  // ---------------------------------------------------------------- whole streams

  /** Between two events: nothing was sent yet, or the reader agrees with the slots. */
  ghost predicate Between(s: State, r: Reader) {
    && !s.terminal
    && (if s.started then r.Reading? && Inv(s, r.items) else r == Waiting && s == INIT)
  }

  lemma StartedContinues(env: Env, s: State, r: Reader) returns (items: seq<Seen>)
    requires Between(s, r)
    ensures var (t, outs) := EnsureStarted(s);
            && ReadAll(env, r, outs) == Some(Reading(items))
            && Inv(t, items) && t.started && !t.terminal
  {
    if s.started {
      items := r.items;
    } else {
      items := [];
      ReadOne(env, Waiting, Created(Payload(s)));
    }
  }

  lemma ProcessContinues(env: Env, s: State, r: Reader, e: Event)
    requires Between(s, r)
    ensures var (t, outs) := Process(env, s, e);
            var r' := ReadAll(env, r, outs);
            r'.Some? && if t.terminal then r'.value.Ended? else Between(t, r'.value)
  {
    var (s1, out1) := EnsureStarted(s);
    var items := StartedContinues(env, s, r);
    HandleContinues(env, s1, items, e);
    ReadAppend(env, r, out1, Handle(env, s1, e).1);
  }

  lemma FinishContinues(env: Env, s: State, r: Reader)
    requires Between(s, r)
    ensures var r' := ReadAll(env, r, Finish(env, s).1);
            r'.Some? && r'.value.Ended?
  {
    var (s1, out1) := EnsureStarted(s);
    var items := StartedContinues(env, s, r);
    CompleteResponseContinues(env, s1, items);
    ReadAppend(env, r, out1, CompleteResponse(env, s1).1);
  }

  lemma {:induction false} DriveIsAccepted(env: Env, s: State, r: Reader, events: seq<Event>)
    requires Between(s, r)
    ensures var r' := ReadAll(env, r, Drive(env, s, events));
            r'.Some? && r'.value.Ended?
    decreases |events|
  {
    if events == [] {
      FinishContinues(env, s, r);
    } else {
      ProcessContinues(env, s, r, events[0]);
      var (s1, out1) := Process(env, s, events[0]);
      if !s1.terminal {
        DriveIsAccepted(env, s1, ReadAll(env, r, out1).value, events[1..]);
        ReadAppend(env, r, out1, Drive(env, s1, events[1..]));
      }
    }
  }
}
