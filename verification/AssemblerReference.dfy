/** A simple account of a stream (core/openai_responses/stream_state.py): the list of all blocks it
    ever had, each with the index it was opened at and the texts it got since. The account has no
    dictionary, no slots that wait to be filled, no flush and no flags. It says which event ends the
    stream, how, and with which output, announcements and usage, and the assembler ends every
    stream as this account says. */
module AssemblerReference {
  import opened Text
  import opened ToolNames
  import opened Assembler
  import opened AssemblerContent

  // ---------------------------------------------------------------- the account

  /** One block: the index it was opened at, with what, the texts it got since, and whether it
      still is open. The place of a block in the list is its slot. */
  datatype Life = Life(index: int, opening: Opening, texts: seq<string>, live: bool)

  /** `unindexed` counts the texts that came without an index. */
  datatype Story = Story(lives: seq<Life>, unindexed: nat, input: Option<int>, output: Option<int>)

  const UNTOLD := Story([], 0, None, None)

  /** The first open block at an index from `lo` on; the length of the list if there is none. */
  function OpenAtIndex(lives: seq<Life>, lo: nat, index: int): (k: nat)
    requires lo <= |lives|
    ensures lo <= k <= |lives|
    ensures k < |lives| ==> lives[k].live && lives[k].index == index
    decreases |lives| - lo
  {
    if lo == |lives| || (lives[lo].live && lives[lo].index == index) then lo else OpenAtIndex(lives, lo + 1, index)
  }

  function Ended(life: Life): Life {
    life.(live := false)
  }

  function Close(lives: seq<Life>, index: int): seq<Life> {
    var k := OpenAtIndex(lives, 0, index);
    if k == |lives| then lives else lives[k := Ended(lives[k])]
  }

  /** What an event does at an index. */
  datatype Deed = Begins(index: int, opening: Opening) | Grows(index: int, text: string) | Ends(index: int) | Idle

  /** The index of a text: its own, or the next negative one. */
  function TextIndex(st: Story, index: Option<int>): int {
    index.GetOr(-1 - st.unindexed)
  }

  function DeedOf(st: Story, e: Event): Deed {
    match e
    case BlockStart(index, TextStart(text)) => Begins(TextIndex(st, index), OpenText(text))
    case BlockStart(Some(i), ThinkingStart(text)) => Begins(i, OpenReasoning(None, text))
    case BlockStart(Some(i), RedactedStart(data)) => Begins(i, OpenReasoning(Some(data), ""))
    case BlockStart(Some(i), ToolStart(id, name, input)) => Begins(i, OpenTool(id, name, input))
    case BlockDelta(index, TextPart(text)) =>
      var i := TextIndex(st, index);
      if !OpenIs(st.lives, i, (o: Opening) => o.OpenText?) then Begins(i, OpenText(text))
      else if text == "" then Idle else Grows(i, text)
    case BlockDelta(Some(i), ThinkingPart(text)) =>
      if !OpenIs(st.lives, i, (o: Opening) => o.OpenReasoning?) then Begins(i, OpenReasoning(None, text))
      else if text == "" then Idle else Grows(i, text)
    case BlockDelta(Some(i), JsonPart(json)) =>
      if OpenIs(st.lives, i, (o: Opening) => o.OpenTool?) then Grows(i, json) else Idle
    case BlockStop(Some(i)) => Ends(i)
    case _ => Idle
  }

  /** The open block at an index is of a kind. */
  predicate OpenIs(lives: seq<Life>, index: int, kind: Opening -> bool) {
    var k := OpenAtIndex(lives, 0, index);
    k < |lives| && kind(lives[k].opening)
  }

  /** An event that takes an index for itself, because it has none and brings text. */
  predicate Unindexed(e: Event) {
    match e
    case BlockStart(None, TextStart(_)) => true
    case BlockDelta(None, TextPart(_)) => true
    case _ => false
  }

  function Do(lives: seq<Life>, deed: Deed): seq<Life> {
    match deed
    case Begins(index, opening) => Close(lives, index) + [Life(index, opening, [], true)]
    case Grows(index, text) =>
      var k := OpenAtIndex(lives, 0, index);
      if k == |lives| then lives else lives[k := lives[k].(texts := lives[k].texts + [text])]
    case Ends(index) => Close(lives, index)
    case Idle => lives
  }

  /** The account with one event more. */
  function Tell(st: Story, e: Event): Story {
    Story(Do(st.lives, DeedOf(st, e)), if Unindexed(e) then st.unindexed + 1 else st.unindexed,
          if e.MessageDelta? && e.inputTokens.Some? then e.inputTokens else st.input,
          if e.MessageDelta? && e.outputTokens.Some? then e.outputTokens else st.output)
  }

  // ---------------------------------------------------------------- what a block becomes

  function Later(life: Life): string {
    Flatten(life.texts)
  }

  /** All text of a tool block: its initial input, where that counts, and its fragments. */
  function RawInput(env: Env, life: Life): string
    requires life.opening.OpenTool?
  {
    match life.opening.input
    case ObjectInput(json) => json + Later(life)
    case OtherInput(json) =>
      if env.identity(life.opening.name).kind == CustomTool then json + Later(life) else Later(life)
    case _ => Later(life)
  }

  /** The arguments of a function call, none where its fragments do not parse. */
  function Arguments(env: Env, life: Life): Option<string>
    requires life.opening.OpenTool?
  {
    env.parse(if RawInput(env, life) == "" then "{}" else RawInput(env, life))
  }

  predicate IsFunction(env: Env, life: Life) {
    life.opening.OpenTool? && env.identity(life.opening.name).kind == FunctionTool
  }

  /** A function call that cannot be finished. */
  predicate Broken(env: Env, life: Life) {
    IsFunction(env, life) && Arguments(env, life).None?
  }

  function Nonempty(namespace: Option<string>): Option<string> {
    if namespace == Some("") then None else namespace
  }

  /** The finished item of a block that is not broken. */
  function ItemOf(env: Env, slot: nat, life: Life): Item
    requires !Broken(env, life)
  {
    match life.opening
    case OpenText(text) => Message(Completed, [text + Later(life)])
    case OpenReasoning(None, text) => Reasoning(Completed, text + Later(life))
    case OpenReasoning(Some(data), _) => Encrypted(Completed, data)
    case OpenTool(id, name, _) =>
      var tool, callId := env.identity(name), if id == "" then env.newCallId(slot) else id;
      if tool.kind == CustomTool
      then CustomCall(Completed, callId, tool.name, Nonempty(tool.namespace), env.customText(RawInput(env, life)))
      else FunctionCall(Completed, callId, tool.name, Nonempty(tool.namespace), Arguments(env, life).value)
  }

  /** The items of the blocks that ended, in the order in which the blocks were opened. */
  function Items(env: Env, lives: seq<Life>, lo: nat): seq<Item>
    requires lo <= |lives|
    decreases |lives| - lo
  {
    if lo == |lives| then []
    else (if lives[lo].live || Broken(env, lives[lo]) then [] else [ItemOf(env, lo, lives[lo])]) + Items(env, lives, lo + 1)
  }

  /** The tokens of the reasoning that ended. */
  function Estimate(env: Env, lives: seq<Life>, lo: nat): nat
    requires lo <= |lives|
    decreases |lives| - lo
  {
    if lo == |lives| then 0 else Thinking(env, lives[lo]) + Estimate(env, lives, lo + 1)
  }

  function Thinking(env: Env, life: Life): nat {
    if life.live || !life.opening.OpenReasoning? || life.opening.text + Later(life) == "" then 0
    else env.tokens(life.opening.text + Later(life))
  }

  /** Token counts are reported if upstream sent any; reasoning is part of the output. */
  predicate UsageIs(usage: Option<Usage>, input: Option<int>, output: Option<int>, reasoning: nat) {
    && (usage.Some? <==> input.Some? || output.Some?)
    && (usage.Some? ==>
          var u := usage.value;
          && u.input == input.GetOr(0) && u.output == output.GetOr(0) && u.total == u.input + u.output
          && (u.reasoning.Some? ==>
                && u.reasoning.value != 0
                && (u.reasoning.value == reasoning <= u.output || u.reasoning.value == u.output < reasoning))
          && (u.reasoning.None? ==> reasoning == 0 || u.output == 0))
  }

  /** The response to a story so far. */
  predicate IsResponse(env: Env, st: Story, r: Response) {
    r.output == Items(env, st.lives, 0) && UsageIs(r.usage, st.input, st.output, Estimate(env, st.lives, 0))
  }

  // ---------------------------------------------------------------- how a story ends

  /** The event ends a block, by its stop or by opening another one at the index, that is a
      function call which cannot be finished. */
  predicate Breaks(env: Env, st: Story, e: Event) {
    var deed := DeedOf(st, e);
    (deed.Begins? || deed.Ends?) &&
      var k := OpenAtIndex(st.lives, 0, deed.index);
      k < |st.lives| && Broken(env, st.lives[k])
  }

  /** Exactly these events end a stream. */
  predicate EndsStream(env: Env, st: Story, e: Event) {
    e.MessageStop? || e.ErrorEvent? || Breaks(env, st, e)
  }

  /** The open blocks end in the order in which they were opened, up to one that is broken. */
  function Settled(env: Env, lives: seq<Life>, lo: nat): (r: seq<Life>)
    requires lo <= |lives|
    ensures |r| == |lives|
    decreases |lives| - lo
  {
    if lo == |lives| || (lives[lo].live && Broken(env, lives[lo])) then lives
    else Settled(env, lives[lo := Ended(lives[lo])], lo + 1)
  }

  /** A block is left that cannot be finished. */
  predicate Stuck(env: Env, lives: seq<Life>) {
    exists k :: 0 <= k < |lives| && IsStuck(env, lives[k])
  }

  predicate IsStuck(env: Env, life: Life) {
    life.live && Broken(env, life)
  }

  /** The last event of the response, by the event that ends the stream or none. */
  ghost predicate IsEnding(env: Env, st: Story, e: Option<Event>, out: Out) {
    if e.Some? && !e.value.MessageStop? && !e.value.ErrorEvent? then
      out.ResponseFailed? && out.error == INVALID_ARGUMENTS && IsResponse(env, st, out.response)
    else
      var end := st.(lives := Settled(env, st.lives, 0));
      if Stuck(env, st.lives) then
        out.ResponseFailed? && out.error == INVALID_ARGUMENTS && IsResponse(env, end, out.response)
      else if e.Some? && e.value.ErrorEvent? then
        out.ResponseFailed? && out.error == e.value.message && IsResponse(env, end, out.response)
      else
        out.ResponseCompleted? && IsResponse(env, end, out.response)
  }

  /** The events in front of the one that ends the stream. */
  function BeforeEnd(env: Env, st: Story, events: seq<Event>): seq<Event>
    decreases |events|
  {
    if events == [] || EndsStream(env, st, events[0]) then []
    else [events[0]] + BeforeEnd(env, Tell(st, events[0]), events[1..])
  }

  function TellAll(st: Story, events: seq<Event>): Story
    decreases |events|
  {
    if events == [] then st else TellAll(Tell(st, events[0]), events[1..])
  }

  // ---------------------------------------------------------------- the assembler keeps the account

  function BlockOf(env: Env, slot: nat, life: Life): Block {
    Grown(NewBlock(env, life.index, slot, life.opening), life.texts)
  }

  /** The open blocks from `lo` on. */
  function Active(env: Env, lives: seq<Life>, lo: nat): seq<Block>
    requires lo <= |lives|
    decreases |lives| - lo
  {
    if lo == |lives| then []
    else (if lives[lo].live then [BlockOf(env, lo, lives[lo])] else []) + Active(env, lives, lo + 1)
  }

  /** The slot of an open block is empty; the others hold the items, and none is broken. */
  predicate SlotIs(env: Env, slots: seq<Option<Item>>, lives: seq<Life>, k: nat) {
    k < |slots| && k < |lives| ==>
      if lives[k].live then slots[k] == None
      else !Broken(env, lives[k]) && slots[k] == Some(ItemOf(env, k, lives[k]))
  }

  ghost predicate Kept(env: Env, s: State, st: Story) {
    && |s.slots| == |st.lives| && (forall k: nat :: SlotIs(env, s.slots, st.lives, k))
    && s.fallbackIndex == -1 - st.unindexed && s.inputTokens == st.input && s.outputTokens == st.output
    && s.reasoningTokens == Estimate(env, st.lives, 0)
  }

  ghost predicate Rel(env: Env, s: State, st: Story) {
    Kept(env, s, st) && s.active == Active(env, st.lives, 0)
  }

  lemma {:induction false} ItemsAreOutput(env: Env, slots: seq<Option<Item>>, lives: seq<Life>, lo: nat)
    requires lo <= |slots| == |lives| && forall k: nat :: SlotIs(env, slots, lives, k)
    ensures FlatMap(SlotItem, slots[lo..]) == Items(env, lives, lo)
    decreases |lives| - lo
  {
    if lo < |lives| {
      assert SlotIs(env, slots, lives, lo);
      assert slots[lo..][1..] == slots[lo + 1..];
      ItemsAreOutput(env, slots, lives, lo + 1);
    }
  }

  lemma PayloadIsResponse(env: Env, s: State, st: Story)
    requires Kept(env, s, st)
    ensures IsResponse(env, st, Payload(s))
  {
    ItemsAreOutput(env, s.slots, st.lives, 0);
    assert s.slots[0..] == s.slots;
  }

  lemma {:induction false} ActiveSnoc(env: Env, lives: seq<Life>, life: Life, lo: nat)
    requires lo <= |lives|
    ensures Active(env, lives + [life], lo)
            == Active(env, lives, lo) + (if life.live then [BlockOf(env, |lives|, life)] else [])
    decreases |lives| - lo
  {
    var more := if life.live then [BlockOf(env, |lives|, life)] else [];
    if lo == |lives| {
      assert Active(env, lives + [life], lo + 1) == [];
      assert more + [] == more && [] + more == more;
    } else {
      ActiveSnoc(env, lives, life, lo + 1);
      ConcatAssoc(if lives[lo].live then [BlockOf(env, lo, lives[lo])] else [], Active(env, lives, lo + 1), more);
    }
  }

  lemma {:induction false} ActiveTail(env: Env, lives: seq<Life>, k: nat, life: Life, lo: nat)
    requires k < lo <= |lives|
    ensures Active(env, lives[k := life], lo) == Active(env, lives, lo)
    decreases |lives| - lo
  {
    if lo < |lives| {
      ActiveTail(env, lives, k, life, lo + 1);
    }
  }

  lemma ActiveHead(env: Env, lives: seq<Life>, lo: nat)
    requires lo < |lives|
    ensures var a, rest := Active(env, lives, lo), Active(env, lives, lo + 1);
            if lives[lo].live then a == [BlockOf(env, lo, lives[lo])] + rest && a[1..] == rest else a == rest
  {
  }

  /** The open blocks from `lo` up to in front of `k`. */
  function ActiveUpTo(env: Env, lives: seq<Life>, lo: nat, k: nat): seq<Block>
    requires lo <= k <= |lives|
    decreases k - lo
  {
    if lo == k then []
    else (if lives[lo].live then [BlockOf(env, lo, lives[lo])] else []) + ActiveUpTo(env, lives, lo + 1, k)
  }

  lemma {:induction false} ActiveSplit(env: Env, lives: seq<Life>, lo: nat, k: nat)
    requires lo <= k <= |lives|
    ensures Active(env, lives, lo) == ActiveUpTo(env, lives, lo, k) + Active(env, lives, k)
    decreases k - lo
  {
    if lo < k {
      ActiveSplit(env, lives, lo + 1, k);
      ConcatAssoc(if lives[lo].live then [BlockOf(env, lo, lives[lo])] else [], ActiveUpTo(env, lives, lo + 1, k),
                  Active(env, lives, k));
    }
  }

  lemma {:induction false} UpToIgnores(env: Env, lives: seq<Life>, lo: nat, k: nat, life: Life)
    requires lo <= k < |lives|
    ensures ActiveUpTo(env, lives[k := life], lo, k) == ActiveUpTo(env, lives, lo, k)
    decreases k - lo
  {
    if lo < k {
      UpToIgnores(env, lives, lo + 1, k, life);
    }
  }

  /** The dictionary finds the block that the account finds. */
  lemma {:induction false} FindAgrees(env: Env, lives: seq<Life>, lo: nat, index: int)
    requires lo <= |lives|
    ensures var k, a := OpenAtIndex(lives, lo, index), Active(env, lives, lo);
            var p := FindBlock(a, index);
            && (k == |lives| <==> p == |a|)
            && (k < |lives| ==> p == |ActiveUpTo(env, lives, lo, k)| && a[p] == BlockOf(env, k, lives[k]))
    decreases |lives| - lo
  {
    if lo < |lives| {
      FindAgrees(env, lives, lo + 1, index);
      ActiveHead(env, lives, lo);
    }
  }

  /** The dictionary when one life is changed: the block is replaced, or removed. */
  lemma ChangeAgrees(env: Env, lives: seq<Life>, index: int, life: Life)
    requires OpenAtIndex(lives, 0, index) < |lives|
    ensures var k, a := OpenAtIndex(lives, 0, index), Active(env, lives, 0);
            var p := FindBlock(a, index);
            && p < |a|
            && Active(env, lives[k := life], 0) == if life.live then a[p := BlockOf(env, k, life)] else Without(a, p)
  {
    var k := OpenAtIndex(lives, 0, index);
    var lives' := lives[k := life];
    FindAgrees(env, lives, 0, index);
    ActiveSplit(env, lives, 0, k);
    ActiveSplit(env, lives', 0, k);
    UpToIgnores(env, lives, 0, k, life);
    ActiveTail(env, lives, k, life, k + 1);
    ActiveHead(env, lives, k);
    ActiveHead(env, lives', k);
    Replace(ActiveUpTo(env, lives, 0, k), BlockOf(env, k, lives[k]), BlockOf(env, k, life), Active(env, lives, k + 1));
  }

  lemma Replace(front: seq<Block>, b: Block, b': Block, rest: seq<Block>)
    ensures (front + ([b] + rest))[|front| := b'] == front + ([b'] + rest)
    ensures Without(front + ([b] + rest), |front|) == front + rest
  {
  }

  lemma {:induction false} EstimateUpdate(env: Env, lives: seq<Life>, k: nat, life: Life, lo: nat)
    requires lo <= |lives| && k < |lives|
    ensures Estimate(env, lives[k := life], lo)
            == Estimate(env, lives, lo) + if lo <= k then Thinking(env, life) - Thinking(env, lives[k]) else 0
    decreases |lives| - lo
  {
    if lo < |lives| {
      EstimateUpdate(env, lives, k, life, lo + 1);
    }
  }

  lemma {:induction false} EstimateSnoc(env: Env, lives: seq<Life>, life: Life, lo: nat)
    requires lo <= |lives|
    ensures Estimate(env, lives + [life], lo) == Estimate(env, lives, lo) + Thinking(env, life)
    decreases |lives| - lo
  {
    if lo == |lives| {
      assert Estimate(env, lives + [life], lo + 1) == 0;
    } else {
      EstimateSnoc(env, lives, life, lo + 1);
    }
  }

  lemma BlockText(env: Env, slot: nat, life: Life)
    ensures var b := BlockOf(env, slot, life);
            Joined(b.parts) == match life.opening
                               case OpenText(text) => text + Later(life)
                               case OpenReasoning(_, text) => text + Later(life)
                               case OpenTool(_, _, _) => RawInput(env, life)
  {
    var first := NewBlock(env, life.index, slot, life.opening);
    JoinedGrown(first, life.texts);
    match life.opening
    case OpenText(text) => JoinedOne(text);
    case OpenReasoning(_, text) => JoinedOne(text);
    case OpenTool(_, _, input) =>
      if input.ObjectInput? || input.OtherInput? {
        FlatMapOne((part: string) => part, input.json);
      }
      assert [] + Later(life) == Later(life);
  }

  // ---------------------------------------------------------------- ending a block

  lemma CommitKeeps(env: Env, s: State, st: Story, k: nat, t: State)
    requires Kept(env, s, st) && k < |st.lives| && !Broken(env, st.lives[k])
    requires t.slots == Commit(s, k, ItemOf(env, k, st.lives[k])).slots
    requires t == s.(slots := t.slots, reasoningTokens := s.reasoningTokens + Thinking(env, Ended(st.lives[k])))
    requires st.lives[k].live
    ensures Kept(env, t, st.(lives := st.lives[k := Ended(st.lives[k])]))
  {
    var lives := st.lives[k := Ended(st.lives[k])];
    EstimateUpdate(env, st.lives, k, Ended(st.lives[k]), 0);
    forall n: nat
      ensures SlotIs(env, t.slots, lives, n)
    {
      assert SlotIs(env, s.slots, st.lives, n);
    }
  }

  /** Completing the block of an open life: it ends with its item, or the stream fails. */
  lemma CompleteKeeps(env: Env, s: State, st: Story, k: nat)
    requires Kept(env, s, st) && !s.terminal && k < |st.lives| && st.lives[k].live
    ensures var (t, outs) := Complete(env, s, BlockOf(env, k, st.lives[k]));
            if Broken(env, st.lives[k]) then t.terminal && outs == [ResponseFailed(Payload(s), INVALID_ARGUMENTS)]
            else !t.terminal && t.active == s.active && Kept(env, t, st.(lives := st.lives[k := Ended(st.lives[k])]))
  {
    var life := st.lives[k];
    BlockText(env, k, life);
    var t := Complete(env, s, BlockOf(env, k, life)).0;
    if !Broken(env, life) {
      CompleteItem(env, s, k, life);
      CommitKeeps(env, s, st, k, t);
    }
  }

  lemma CompleteItem(env: Env, s: State, k: nat, life: Life)
    requires !Broken(env, life) && life.live
    ensures var t := Complete(env, s, BlockOf(env, k, life)).0;
            && t.slots == Commit(s, k, ItemOf(env, k, life)).slots
            && t == s.(slots := t.slots, reasoningTokens := s.reasoningTokens + Thinking(env, Ended(life)))
  {
    BlockText(env, k, life);
    assert Later(Ended(life)) == Later(life);
  }

  /** The event that ended the stream because of arguments that do not parse. */
  ghost predicate FailsAs(env: Env, st: Story, outs: seq<Out>) {
    && outs != [] && outs[|outs| - 1].ResponseFailed? && outs[|outs| - 1].error == INVALID_ARGUMENTS
    && IsResponse(env, st, outs[|outs| - 1].response)
  }

  /** An operation broke a stream, or keeps the account. */
  ghost predicate Follows(env: Env, t: State, outs: seq<Out>, breaks: bool, st: Story, told: Story) {
    if breaks then t.terminal && FailsAs(env, st, outs) else !t.terminal && Rel(env, t, told)
  }

  predicate BreaksAt(env: Env, lives: seq<Life>, index: int) {
    var k := OpenAtIndex(lives, 0, index);
    k < |lives| && Broken(env, lives[k])
  }

  lemma CompleteAtFollows(env: Env, s: State, st: Story, index: int)
    requires Rel(env, s, st) && !s.terminal
    ensures var (t, outs) := CompleteAt(env, s, index);
            Follows(env, t, outs, BreaksAt(env, st.lives, index), st, st.(lives := Close(st.lives, index)))
  {
    var k := OpenAtIndex(st.lives, 0, index);
    FindAgrees(env, st.lives, 0, index);
    if k < |st.lives| {
      ChangeAgrees(env, st.lives, index, Ended(st.lives[k]));
      var rest := s.(active := Without(s.active, FindBlock(s.active, index)));
      KeptIgnores(env, s, rest, st);
      CompleteKeeps(env, rest, st, k);
      PayloadIsResponse(env, rest, st);
    }
  }

  lemma KeptIgnores(env: Env, s: State, t: State, st: Story)
    requires Kept(env, s, st) && t.slots == s.slots && t.fallbackIndex == s.fallbackIndex
    requires t.inputTokens == s.inputTokens && t.outputTokens == s.outputTokens && t.reasoningTokens == s.reasoningTokens
    ensures Kept(env, t, st)
  {
    forall k: nat
      ensures SlotIs(env, t.slots, st.lives, k)
    {
      assert SlotIs(env, s.slots, st.lives, k);
    }
  }

  lemma BeginKeeps(env: Env, s: State, st: Story, index: int, o: Opening)
    requires Rel(env, s, st)
    ensures var b := NewBlock(env, index, |s.slots|, o);
            Rel(env, s.(slots := s.slots + [None], active := s.active + [b]),
                st.(lives := st.lives + [Life(index, o, [], true)]))
  {
    var life := Life(index, o, [], true);
    var lives := st.lives + [life];
    var slots := s.slots + [None];
    ActiveSnoc(env, st.lives, life, 0);
    EstimateSnoc(env, st.lives, life, 0);
    GrownNone(NewBlock(env, index, |s.slots|, o));
    forall k: nat
      ensures SlotIs(env, slots, lives, k)
    {
      assert SlotIs(env, s.slots, st.lives, k);
    }
  }

  lemma OpenAtFollows(env: Env, s: State, st: Story, index: int, o: Opening)
    requires Rel(env, s, st) && !s.terminal
    ensures var (t, outs) := OpenAt(env, s, index, o);
            Follows(env, t, outs, BreaksAt(env, st.lives, index), st, st.(lives := Do(st.lives, Begins(index, o))))
  {
    CompleteAtFollows(env, s, st, index);
    var s1 := CompleteAt(env, s, index).0;
    if !s1.terminal {
      BeginKeeps(env, s1, st.(lives := Close(st.lives, index)), index, o);
    }
  }

  lemma AddAtKeeps(env: Env, s: State, st: Story, index: int, text: string)
    requires Rel(env, s, st) && OpenAtIndex(st.lives, 0, index) < |st.lives|
    requires text != "" || OpenIs(st.lives, index, (o: Opening) => o.OpenTool?)
    ensures Rel(env, AddAt(s, index, text).0, st.(lives := Do(st.lives, Grows(index, text))))
  {
    var k := OpenAtIndex(st.lives, 0, index);
    var life := st.lives[k].(texts := st.lives[k].texts + [text]);
    var lives := st.lives[k := life];
    FindAgrees(env, st.lives, 0, index);
    ChangeAgrees(env, st.lives, index, life);
    EstimateUpdate(env, st.lives, k, life, 0);
    var b := BlockOf(env, k, st.lives[k]);
    ConcatAssoc(NewBlock(env, life.index, k, life.opening).parts, st.lives[k].texts, [text]);
    assert WithPart(b, text) == BlockOf(env, k, life);
    var t := AddAt(s, index, text).0;
    forall n: nat
      ensures SlotIs(env, t.slots, lives, n)
    {
      assert SlotIs(env, s.slots, st.lives, n);
    }
  }

  // ---------------------------------------------------------------- one event

  /** The assembler and the account mean the same. */
  predicate Fits(st: Story, m: Move, deed: Deed) {
    match deed
    case Begins(i, o) => m == Opens(i, o)
    case Grows(i, text) =>
      m == Adds(i, text) && OpenAtIndex(st.lives, 0, i) < |st.lives|
      && (text != "" || OpenIs(st.lives, i, (o: Opening) => o.OpenTool?))
    case Ends(_) => false
    case Idle => m == Nothing || (m.Adds? && m.text == "" && !OpenIs(st.lives, m.index, (o: Opening) => o.OpenTool?))
  }

  function Counted(st: Story, e: Event): Story {
    st.(unindexed := if Unindexed(e) then st.unindexed + 1 else st.unindexed)
  }

  lemma StartFits(env: Env, s: State, st: Story, index: Option<int>, block: StartBlock)
    requires Rel(env, s, st)
    ensures var (s1, m), e := StartMove(s, index, block), BlockStart(index, block);
            && Rel(env, s1, Counted(st, e)) && s1.terminal == s.terminal && Fits(st, m, DeedOf(st, e))
            && s1.slots == s.slots && s1.active == s.active && s1.started == s.started
  {
    SafeIndexFollows(env, s, st, index);
  }

  lemma DeltaFits(env: Env, s: State, st: Story, index: Option<int>, delta: DeltaBody)
    requires Rel(env, s, st)
    ensures var (s1, m), e := DeltaMove(s, index, delta), BlockDelta(index, delta);
            && Rel(env, s1, Counted(st, e)) && s1.terminal == s.terminal && Fits(st, m, DeedOf(st, e))
            && s1.slots == s.slots && s1.active == s.active && s1.started == s.started
  {
    SafeIndexFollows(env, s, st, index);
    FindAgrees(env, st.lives, 0, TextIndex(st, index));
  }

  lemma MoveFollows(env: Env, s: State, st: Story, m: Move, deed: Deed)
    requires Rel(env, s, st) && !s.terminal && Fits(st, m, deed)
    ensures var (t, outs) := Make(env, s, m);
            Follows(env, t, outs, deed.Begins? && BreaksAt(env, st.lives, deed.index), st, st.(lives := Do(st.lives, deed)))
  {
    match deed
    case Begins(i, o) => OpenAtFollows(env, s, st, i, o);
    case Grows(i, text) => AddAtKeeps(env, s, st, i, text);
    case Idle =>
      if m.Adds? {
        FindAgrees(env, st.lives, 0, m.index);
      }
  }

  lemma SafeIndexFollows(env: Env, s: State, st: Story, index: Option<int>)
    requires Rel(env, s, st)
    ensures SafeIndex(s, index).0 == TextIndex(st, index) && SafeIndex(s, index).1.terminal == s.terminal
    ensures Rel(env, SafeIndex(s, index).1, st.(unindexed := if index.None? then st.unindexed + 1 else st.unindexed))
  {
    var st1 := st.(unindexed := if index.None? then st.unindexed + 1 else st.unindexed);
    var s1 := SafeIndex(s, index).1;
    forall k: nat
      ensures SlotIs(env, s1.slots, st1.lives, k)
    {
      assert SlotIs(env, s.slots, st.lives, k);
    }
  }

  /** What a start does to the account. */
  lemma StartFollows(env: Env, s: State, st: Story, index: Option<int>, block: StartBlock)
    requires Rel(env, s, st) && !s.terminal
    ensures var (t, outs) := HandleStart(env, s, index, block);
            var e := BlockStart(index, block);
            Follows(env, t, outs, Breaks(env, st, e), st, Tell(st, e))
  {
    var e := BlockStart(index, block);
    StartFits(env, s, st, index, block);
    var (s1, m) := StartMove(s, index, block);
    MoveFollows(env, s1, Counted(st, e), m, DeedOf(st, e));
  }

  lemma DeltaFollows(env: Env, s: State, st: Story, index: Option<int>, delta: DeltaBody)
    requires Rel(env, s, st) && !s.terminal
    ensures var (t, outs) := HandleDelta(env, s, index, delta);
            var e := BlockDelta(index, delta);
            Follows(env, t, outs, Breaks(env, st, e), st, Tell(st, e))
  {
    var e := BlockDelta(index, delta);
    DeltaFits(env, s, st, index, delta);
    var (s1, m) := DeltaMove(s, index, delta);
    MoveFollows(env, s1, Counted(st, e), m, DeedOf(st, e));
  }

  lemma EventFollows(env: Env, s: State, st: Story, e: Event)
    requires Rel(env, s, st) && !s.terminal && !e.MessageStop? && !e.ErrorEvent?
    ensures var (t, outs) := Handle(env, s, e);
            Follows(env, t, outs, Breaks(env, st, e), st, Tell(st, e))
  {
    match e
    case BlockStart(index, block) => StartFollows(env, s, st, index, block);
    case BlockDelta(index, delta) => DeltaFollows(env, s, st, index, delta);
    case BlockStop(index) =>
      if index.Some? {
        CompleteAtFollows(env, s, st, index.value);
      }
    case MessageDelta(_, _) => TokensFollow(env, s, st, e);
    case OtherEvent =>
  }

  lemma TokensFollow(env: Env, s: State, st: Story, e: Event)
    requires Rel(env, s, st) && e.MessageDelta?
    ensures Rel(env, Handle(env, s, e).0, Tell(st, e))
  {
    var t := Handle(env, s, e).0;
    forall k: nat
      ensures SlotIs(env, t.slots, st.lives, k)
    {
      assert SlotIs(env, s.slots, st.lives, k);
    }
  }

  // ---------------------------------------------------------------- the end

  lemma {:induction false} ActiveSlots(env: Env, lives: seq<Life>, lo: nat)
    requires lo <= |lives|
    ensures forall b :: b in Active(env, lives, lo) ==> lo <= b.slot
    decreases |lives| - lo
  {
    if lo < |lives| {
      ActiveSlots(env, lives, lo + 1);
    }
  }

  /** The flush takes the open blocks in their order. */
  lemma {:induction false} ActiveIsSorted(env: Env, lives: seq<Life>, lo: nat)
    requires lo <= |lives|
    ensures SortedBySlot(Active(env, lives, lo)) == Active(env, lives, lo)
    decreases |lives| - lo
  {
    if lo < |lives| {
      ActiveIsSorted(env, lives, lo + 1);
      ActiveHead(env, lives, lo);
      ActiveSlots(env, lives, lo + 1);
      var rest := Active(env, lives, lo + 1);
      if lives[lo].live && rest != [] {
        assert rest[0] in rest;
      }
    }
  }

  predicate StuckFrom(env: Env, lives: seq<Life>, lo: nat) {
    exists k :: lo <= k < |lives| && IsStuck(env, lives[k])
  }

  lemma StuckStep(env: Env, lives: seq<Life>, lo: nat)
    requires lo < |lives| && !IsStuck(env, lives[lo])
    ensures StuckFrom(env, lives, lo) <==> StuckFrom(env, lives[lo := Ended(lives[lo])], lo + 1)
  {
    var after := lives[lo := Ended(lives[lo])];
    if k :| lo <= k < |lives| && IsStuck(env, lives[k]) {
      assert IsStuck(env, after[k]);
    }
    if k :| lo + 1 <= k < |after| && IsStuck(env, after[k]) {
      assert IsStuck(env, lives[k]);
    }
  }

  lemma {:induction false} FlushFollows(env: Env, s: State, st: Story, lo: nat)
    requires Kept(env, s, st) && s.active == [] && !s.terminal && lo <= |st.lives|
    requires forall k :: 0 <= k < lo ==> !st.lives[k].live
    ensures var (t, outs) := CompleteAll(env, s, Active(env, st.lives, lo));
            var end := st.(lives := Settled(env, st.lives, lo));
            if StuckFrom(env, st.lives, lo) then t.terminal && FailsAs(env, end, outs)
            else !t.terminal && t.active == [] && Kept(env, t, end)
    decreases |st.lives| - lo
  {
    if lo == |st.lives| {
      CompleteAllNone(env, s, []);
    } else {
      var life := st.lives[lo];
      var lives := st.lives[lo := Ended(life)];
      ActiveHead(env, st.lives, lo);
      ActiveTail(env, st.lives, lo, Ended(life), lo + 1);
      if !IsStuck(env, life) {
        StuckStep(env, st.lives, lo);
      }
      if !life.live {
        assert lives == st.lives;
        FlushFollows(env, s, st, lo + 1);
      } else {
        CompleteKeeps(env, s, st, lo);
        CompleteAllStep(env, s, Active(env, st.lives, lo));
        var (t, outs) := Complete(env, s, BlockOf(env, lo, life));
        if Broken(env, life) {
          StuckHere(env, s, st, lo, t, outs);
        } else {
          FlushFollows(env, t, st.(lives := lives), lo + 1);
          FailsBehind(env, st.(lives := Settled(env, lives, lo + 1)), outs, CompleteAll(env, t, Active(env, lives, lo + 1)).1);
        }
      }
    }
  }

  lemma StuckHere(env: Env, s: State, st: Story, lo: nat, t: State, outs: seq<Out>)
    requires Kept(env, s, st) && lo < |st.lives| && IsStuck(env, st.lives[lo]) && t.terminal
    requires outs == [ResponseFailed(Payload(s), INVALID_ARGUMENTS)]
    ensures StuckFrom(env, st.lives, lo) && Settled(env, st.lives, lo) == st.lives
    ensures FailsAs(env, st, outs + CompleteAll(env, t, Active(env, st.lives, lo + 1)).1)
    ensures CompleteAll(env, t, Active(env, st.lives, lo + 1)).0 == t
  {
    CompleteAllNone(env, t, Active(env, st.lives, lo + 1));
    PayloadIsResponse(env, s, st);
    assert outs + [] == outs;
  }

  lemma FailsBehind(env: Env, st: Story, a: seq<Out>, b: seq<Out>)
    ensures FailsAs(env, st, b) ==> FailsAs(env, st, a + b)
  {
  }

  /** The last event is the one that ends the story. */
  ghost predicate EndsAs(env: Env, st: Story, e: Option<Event>, outs: seq<Out>) {
    outs != [] && IsEnding(env, st, e, outs[|outs| - 1])
  }

  lemma FlushOfAll(env: Env, s: State, st: Story)
    requires Rel(env, s, st) && !s.terminal
    ensures var (t, outs) := Flush(env, s);
            var end := st.(lives := Settled(env, st.lives, 0));
            if Stuck(env, st.lives) then t.terminal && FailsAs(env, end, outs)
            else !t.terminal && IsResponse(env, end, Payload(t))
  {
    ActiveIsSorted(env, st.lives, 0);
    var empty := s.(active := []);
    KeptIgnores(env, s, empty, st);
    FlushFollows(env, empty, st, 0);
    assert Stuck(env, st.lives) <==> StuckFrom(env, st.lives, 0);
    if !Stuck(env, st.lives) {
      PayloadIsResponse(env, Flush(env, s).0, st.(lives := Settled(env, st.lives, 0)));
    }
  }

  lemma CompletionEnds(env: Env, s: State, st: Story, e: Option<Event>)
    requires Rel(env, s, st) && !s.terminal && (e == None || e == Some(MessageStop))
    ensures CompleteResponse(env, s).0.terminal && EndsAs(env, st, e, CompleteResponse(env, s).1)
  {
    FlushOfAll(env, s, st);
  }

  lemma FailureEnds(env: Env, s: State, st: Story, message: string)
    requires Rel(env, s, st) && !s.terminal
    ensures FailResponse(env, s, message).0.terminal
    ensures EndsAs(env, st, Some(ErrorEvent(message)), FailResponse(env, s, message).1)
  {
    FlushOfAll(env, s, st);
  }

  lemma EndsBehind(env: Env, st: Story, e: Option<Event>, a: seq<Out>, b: seq<Out>)
    ensures EndsAs(env, st, e, b) ==> EndsAs(env, st, e, a + b)
  {
  }

  /** One event in full: it ends the stream exactly if the account says so, as the account says, and
      otherwise the account goes on. */
  lemma ProcessFollows(env: Env, s: State, st: Story, e: Event)
    requires Rel(env, s, st) && !s.terminal
    ensures var (t, outs) := Process(env, s, e);
            if EndsStream(env, st, e) then t.terminal && EndsAs(env, st, Some(e), outs)
            else !t.terminal && Rel(env, t, Tell(st, e))
  {
    var (s1, out1) := EnsureStarted(s);
    KeptIgnores(env, s, s1, st);
    if e.MessageStop? {
      CompletionEnds(env, s1, st, Some(e));
    } else if e.ErrorEvent? {
      FailureEnds(env, s1, st, e.message);
    } else {
      EventFollows(env, s1, st, e);
    }
    EndsBehind(env, st, Some(e), out1, Handle(env, s1, e).1);
  }

  /** The event that ends the stream, if one does. */
  function EndEvent(env: Env, st: Story, events: seq<Event>): Option<Event>
    decreases |events|
  {
    if events == [] then None
    else if EndsStream(env, st, events[0]) then Some(events[0])
    else EndEvent(env, Tell(st, events[0]), events[1..])
  }

  lemma {:induction false} DriveFollows(env: Env, s: State, st: Story, events: seq<Event>)
    requires Rel(env, s, st) && !s.terminal
    ensures EndsAs(env, TellAll(st, BeforeEnd(env, st, events)), EndEvent(env, st, events), Drive(env, s, events))
    ensures Survived(env, s, events) == BeforeEnd(env, st, events)
    decreases |events|
  {
    if events == [] {
      var (s1, out1) := EnsureStarted(s);
      KeptIgnores(env, s, s1, st);
      CompletionEnds(env, s1, st, None);
      EndsBehind(env, st, None, out1, CompleteResponse(env, s1).1);
    } else {
      var e := events[0];
      ProcessFollows(env, s, st, e);
      var (s1, out1) := Process(env, s, e);
      if !s1.terminal {
        var told, rest := Tell(st, e), Drive(env, s1, events[1..]);
        DriveFollows(env, s1, told, events[1..]);
        var before := BeforeEnd(env, told, events[1..]);
        assert ([e] + before)[1..] == before;
        EndsBehind(env, TellAll(told, before), EndEvent(env, st, events), out1, rest);
      }
    }
  }

  /** How every stream ends. The account of the events says which event ends the stream, whether
      the response is completed or failed and with which error, its whole output, an item for each
      block with all that was sent for it, and its usage. */
  lemma EveryStreamEndsAsTold(env: Env, events: seq<Event>)
    ensures EndsAs(env, TellAll(UNTOLD, BeforeEnd(env, UNTOLD, events)), EndEvent(env, UNTOLD, events),
                   Drive(env, INIT, events))
  {
    DriveFollows(env, INIT, UNTOLD, events);
  }

  /** The texts and thoughts of a translated stream are, in order, those of the events in front
      of the one that ends it: nothing is lost, doubled or moved between the two kinds. */
  lemma TextIsConserved(env: Env, events: seq<Event>)
    ensures SpokenIn(Drive(env, INIT, events)) == FlatMap(Heard, BeforeEnd(env, UNTOLD, events))
    ensures BeforeEnd(env, UNTOLD, events) <= events
  {
    DriveSays(env, INIT, events);
    DriveFollows(env, INIT, UNTOLD, events);
  }

  // ---------------------------------------------------------------- what is announced

  function Added(out: Out): seq<(nat, Item)> {
    if out.ItemAdded? then [(out.slot, out.item)] else []
  }

  function AddedIn(outs: seq<Out>): seq<(nat, Item)> {
    FlatMap(Added, outs)
  }

  /** The item of a block as it is announced: in progress, without any text. */
  function InProgressItem(env: Env, slot: nat, opening: Opening): Item {
    match opening
    case OpenText(_) => Message(InProgress, [])
    case OpenReasoning(None, _) => Reasoning(InProgress, "")
    case OpenReasoning(Some(data), _) => Encrypted(InProgress, data)
    case OpenTool(id, name, _) =>
      var tool, callId := env.identity(name), if id == "" then env.newCallId(slot) else id;
      if tool.kind == CustomTool then CustomCall(InProgress, callId, tool.name, Nonempty(tool.namespace), "")
      else FunctionCall(InProgress, callId, tool.name, Nonempty(tool.namespace), "")
  }

  function Announcements(env: Env, lives: seq<Life>, lo: nat): seq<(nat, Item)>
    requires lo <= |lives|
    decreases |lives| - lo
  {
    if lo == |lives| then []
    else [(lo, InProgressItem(env, lo, lives[lo].opening))] + Announcements(env, lives, lo + 1)
  }

  predicate AddsNothing(outs: seq<Out>) {
    AddedIn(outs) == []
  }

  lemma AddedAppend(a: seq<Out>, b: seq<Out>)
    ensures AddedIn(a + b) == AddedIn(a) + AddedIn(b)
    ensures AddsNothing(a) ==> AddedIn(a + b) == AddedIn(b)
  {
    FlatMapAppend(Added, a, b);
    assert [] + AddedIn(b) == AddedIn(b);
  }

  lemma CompleteAddsNothing(env: Env, s: State, b: Block)
    ensures AddsNothing(Complete(env, s, b).1)
  {
    var outs := Complete(env, s, b).1;
    assert forall out :: out in outs ==> Added(out) == [];
    FlatMapNone(Added, outs);
  }

  lemma CompleteAtAddsNothing(env: Env, s: State, index: int)
    ensures AddsNothing(CompleteAt(env, s, index).1)
  {
    var p := FindBlock(s.active, index);
    if p < |s.active| {
      CompleteAddsNothing(env, s.(active := Without(s.active, p)), s.active[p]);
    }
  }

  lemma {:induction false} CompleteAllAddsNothing(env: Env, s: State, blocks: seq<Block>)
    ensures AddsNothing(CompleteAll(env, s, blocks).1)
    decreases |blocks|
  {
    if blocks == [] || s.terminal {
      CompleteAllNone(env, s, blocks);
    } else {
      var t := Complete(env, s, blocks[0]);
      CompleteAllStep(env, s, blocks);
      CompleteAddsNothing(env, s, blocks[0]);
      CompleteAllAddsNothing(env, t.0, blocks[1..]);
      AddedAppend(t.1, CompleteAll(env, t.0, blocks[1..]).1);
    }
  }

  lemma EndAddsNothing(env: Env, s: State, message: string)
    ensures AddsNothing(CompleteResponse(env, s).1) && AddsNothing(FailResponse(env, s, message).1)
  {
    CompleteAllAddsNothing(env, s.(active := []), SortedBySlot(s.active));
    var (s1, out1) := Flush(env, s);
    FlatMapOne(Added, ResponseCompleted(Payload(s1)));
    FlatMapOne(Added, ResponseFailed(Payload(s1), message));
    AddedAppend(out1, [ResponseCompleted(Payload(s1))]);
    AddedAppend(out1, [ResponseFailed(Payload(s1), message)]);
  }

  lemma OpeningAddsOne(env: Env, index: int, slot: nat, o: Opening)
    ensures AddedIn(OpeningOut(NewBlock(env, index, slot, o))) == [(slot, InProgressItem(env, slot, o))]
  {
    var b := NewBlock(env, index, slot, o);
    var first := ItemAdded(slot, Announced(b));
    var more := OpeningOut(b)[1..];
    assert OpeningOut(b) == [first] + more;
    assert forall out :: out in more ==> Added(out) == [];
    FlatMapNone(Added, more);
    FlatMapOne(Added, first);
    AddedAppend([first], more);
  }

  lemma MoveAdds(env: Env, s: State, m: Move)
    requires !s.terminal && forall b :: b in s.active ==> b.slot < |s.slots|
    ensures var (t, outs) := Make(env, s, m);
            AddedIn(outs) == if m.Opens? && !t.terminal then [(|s.slots|, InProgressItem(env, |s.slots|, m.opening))] else []
  {
    match m
    case Opens(index, o) =>
      CompleteAtAddsNothing(env, s, index);
      CompleteAtKeepsSize(env, s, index);
      var (s1, out1) := CompleteAt(env, s, index);
      OpeningAddsOne(env, index, |s1.slots|, o);
      AddedAppend(out1, OpeningOut(NewBlock(env, index, |s1.slots|, o)));
    case Adds(index, text) =>
      var p := FindBlock(s.active, index);
      if p < |s.active| {
        FlatMapOne(Added, TextDelta(s.active[p].slot, text));
        FlatMapOne(Added, ReasoningDelta(s.active[p].slot, text));
      }
    case Nothing =>
  }

  lemma CompleteAtKeepsSize(env: Env, s: State, index: int)
    requires forall b :: b in s.active ==> b.slot < |s.slots|
    ensures |CompleteAt(env, s, index).0.slots| == |s.slots|
  {
    var p := FindBlock(s.active, index);
    if p < |s.active| {
      assert s.active[p] in s.active;
    }
  }

  lemma {:induction false} ActiveHaveSlots(env: Env, lives: seq<Life>, lo: nat)
    requires lo <= |lives|
    ensures forall b :: b in Active(env, lives, lo) ==> b.slot < |lives|
    decreases |lives| - lo
  {
    if lo < |lives| {
      ActiveHaveSlots(env, lives, lo + 1);
    }
  }

  /** What one event announces: the block it begins, unless it ends the stream. */
  function Announced1(env: Env, st: Story, e: Event): seq<(nat, Item)> {
    var deed := DeedOf(st, e);
    if deed.Begins? && !EndsStream(env, st, e)
    then [(|st.lives|, InProgressItem(env, |st.lives|, deed.opening))] else []
  }

  lemma MoveAnnounces(env: Env, s: State, st: Story, m: Move, deed: Deed)
    requires Rel(env, s, st) && !s.terminal && Fits(st, m, deed)
    ensures AddedIn(Make(env, s, m).1)
            == if deed.Begins? && !BreaksAt(env, st.lives, deed.index)
               then [(|st.lives|, InProgressItem(env, |st.lives|, deed.opening))] else []
  {
    ActiveHaveSlots(env, st.lives, 0);
    MoveFollows(env, s, st, m, deed);
    MoveAdds(env, s, m);
  }

  lemma HandleAnnounces(env: Env, s: State, st: Story, e: Event)
    requires Rel(env, s, st) && !s.terminal
    ensures AddedIn(Handle(env, s, e).1) == Announced1(env, st, e)
  {
    match e
    case BlockStart(index, block) =>
      StartFits(env, s, st, index, block);
      MoveAnnounces(env, StartMove(s, index, block).0, Counted(st, e), StartMove(s, index, block).1, DeedOf(st, e));
    case BlockDelta(index, delta) =>
      DeltaFits(env, s, st, index, delta);
      MoveAnnounces(env, DeltaMove(s, index, delta).0, Counted(st, e), DeltaMove(s, index, delta).1, DeedOf(st, e));
    case BlockStop(index) =>
      if index.Some? {
        CompleteAtAddsNothing(env, s, index.value);
      }
    case MessageDelta(_, _) =>
    case MessageStop => EndAddsNothing(env, s, "");
    case ErrorEvent(message) => EndAddsNothing(env, s, message);
    case OtherEvent =>
  }

  lemma ProcessAnnounces(env: Env, s: State, st: Story, e: Event)
    requires Rel(env, s, st) && !s.terminal
    ensures AddedIn(Process(env, s, e).1) == Announced1(env, st, e)
  {
    var (s1, out1) := EnsureStarted(s);
    KeptIgnores(env, s, s1, st);
    HandleAnnounces(env, s1, st, e);
    FlatMapOne(Added, Created(Payload(s)));
    AddedAppend(out1, Handle(env, s1, e).1);
  }

  lemma {:induction false} OpeningsStay(st: Story, events: seq<Event>, k: nat)
    requires k < |st.lives|
    ensures k < |TellAll(st, events).lives| && TellAll(st, events).lives[k].opening == st.lives[k].opening
    ensures |st.lives| <= |TellAll(st, events).lives|
    decreases |events|
  {
    if events != [] {
      OpeningsStay(Tell(st, events[0]), events[1..], k);
    }
  }

  lemma {:induction false} LivesGrow(st: Story, events: seq<Event>)
    ensures |st.lives| <= |TellAll(st, events).lives|
    decreases |events|
  {
    if events != [] {
      LivesGrow(Tell(st, events[0]), events[1..]);
    }
  }

  lemma {:induction false} DriveAnnounces(env: Env, s: State, st: Story, events: seq<Event>)
    requires Rel(env, s, st) && !s.terminal
    ensures var end := TellAll(st, BeforeEnd(env, st, events)).lives;
            |st.lives| <= |end| && AddedIn(Drive(env, s, events)) == Announcements(env, end, |st.lives|)
    decreases |events|
  {
    if events == [] {
      FinishAnnounces(env, s);
    } else {
      var e := events[0];
      var (s1, out1) := Process(env, s, e);
      ProcessFollows(env, s, st, e);
      ProcessAnnounces(env, s, st, e);
      if !s1.terminal {
        var told := Tell(st, e);
        var before := BeforeEnd(env, told, events[1..]);
        DriveAnnounces(env, s1, told, events[1..]);
        AddedAppend(out1, Drive(env, s1, events[1..]));
        assert ([e] + before)[1..] == before;
        AnnouncedNext(env, st, e, before);
      }
    }
  }

  lemma AnnouncedNext(env: Env, st: Story, e: Event, before: seq<Event>)
    requires !EndsStream(env, st, e)
    ensures var end := TellAll(Tell(st, e), before).lives;
            && |st.lives| <= |Tell(st, e).lives| <= |end|
            && Announced1(env, st, e) + Announcements(env, end, |Tell(st, e).lives|) == Announcements(env, end, |st.lives|)
  {
    var told := Tell(st, e);
    LivesGrow(told, before);
    var end := TellAll(told, before).lives;
    if DeedOf(st, e).Begins? {
      OpeningsStay(told, before, |st.lives|);
    } else {
      assert [] + Announcements(env, end, |st.lives|) == Announcements(env, end, |st.lives|);
    }
  }

  lemma FinishAnnounces(env: Env, s: State)
    requires !s.terminal
    ensures AddsNothing(Finish(env, s).1)
  {
    var (s1, out1) := EnsureStarted(s);
    EndAddsNothing(env, s1, "");
    FlatMapOne(Added, Created(Payload(s)));
    AddedAppend(out1, CompleteResponse(env, s1).1);
  }

  /** Every block of the account is announced once, in its order and with its kind, call id and
      name, and nothing else is announced. */
  lemma EveryBlockIsAnnounced(env: Env, events: seq<Event>)
    ensures AddedIn(Drive(env, INIT, events))
            == Announcements(env, TellAll(UNTOLD, BeforeEnd(env, UNTOLD, events)).lives, 0)
  {
    DriveAnnounces(env, INIT, UNTOLD, events);
  }

  /** An event that does nothing at any index, and does not end the stream, emits nothing but the
      creation and leaves slots and blocks alone: unknown events, token counts, blocks and deltas of
      unknown kinds, empty texts for a block of their kind, and all that has no index to go to. */
  lemma IdleEventsAreQuiet(env: Env, s: State, st: Story, e: Event)
    requires Rel(env, s, st) && !s.terminal && DeedOf(st, e).Idle? && !e.MessageStop? && !e.ErrorEvent?
    ensures var (t, outs) := Process(env, s, e);
            && outs == (if s.started then [] else [Created(Payload(s))])
            && t.slots == s.slots && t.active == s.active && !t.terminal
  {
    var (s1, out1) := EnsureStarted(s);
    KeptIgnores(env, s, s1, st);
    HandleIsQuiet(env, s1, st, e);
    assert out1 + [] == out1;
  }

  lemma HandleIsQuiet(env: Env, s: State, st: Story, e: Event)
    requires Rel(env, s, st) && !s.terminal && DeedOf(st, e).Idle? && !e.MessageStop? && !e.ErrorEvent?
    ensures var (t, outs) := Handle(env, s, e);
            outs == [] && t.slots == s.slots && t.active == s.active && !t.terminal
  {
    match e
    case BlockStart(index, block) =>
      StartFits(env, s, st, index, block);
      IdleMove(env, StartMove(s, index, block).0, Counted(st, e), StartMove(s, index, block).1);
    case BlockDelta(index, delta) =>
      DeltaFits(env, s, st, index, delta);
      IdleMove(env, DeltaMove(s, index, delta).0, Counted(st, e), DeltaMove(s, index, delta).1);
    case _ =>
  }

  lemma IdleMove(env: Env, s: State, st: Story, m: Move)
    requires Rel(env, s, st) && Fits(st, m, Idle)
    ensures Make(env, s, m).0 == s && Make(env, s, m).1 == []
  {
    if m.Adds? {
      FindAgrees(env, st.lives, 0, m.index);
    }
  }
}
