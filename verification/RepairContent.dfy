/** What the repair does to the content: no delta is lost, changed or moved to another block,
    thinking disappears exactly when the upstream events allow it, and tool calls keep their
    identity when they are opened again. */
module RepairContent {
  import opened Text
  import opened StreamContract
  import opened BlockRepair
  import opened RepairContract
  import opened RepairExact

  // ---------------------------------------------------------------- deltas, in order

  /** The upstream indices dropped so far. */
  function DropAfter(dropped: set<int>, e: Event, enabled: bool): set<int> {
    match e
    case Start(Some(i), Some(b)) => if ShouldDrop(b.kind, enabled) then dropped + {i} else dropped
    case _ => dropped
  }

  predicate IsKept(dropped: set<int>, e: Event, enabled: bool) {
    match e
    case DeltaEvent(Some(i), Some(d)) => i !in dropped && !ShouldDrop(d.kind, enabled)
    case _ => true
  }

  /** The upstream deltas that are not subject to dropping. */
  function Kept(dropped: set<int>, events: seq<Event>, enabled: bool): seq<Option<Delta>>
    decreases |events|
  {
    if events == [] then []
    else
      (if events[0].DeltaEvent? && IsKept(dropped, events[0], enabled) then [events[0].delta] else [])
      + Kept(DropAfter(dropped, events[0], enabled), events[1..], enabled)
  }

  function DeltaOf(e: Event): seq<Option<Delta>> {
    if e.DeltaEvent? then [e.delta] else []
  }

  function Deltas(out: seq<Event>): seq<Option<Delta>> {
    FlatMap(DeltaOf, out)
  }

  lemma StartHasNoDeltas(s: State, e: Event, i: int, b: Block, enabled: bool)
    requires e == Start(Some(i), Some(b))
    ensures Deltas(StepStart(s, e, i, b, enabled).1) == []
    ensures StepStart(s, e, i, b, enabled).0.dropped == DropAfter(s.dropped, e, enabled)
  {
    CloseOthersKeeps(s, s.order, i);
    var (s1, prefix) := CloseOthers(s, s.order, i);
    var last := Start(Some(s1.next), Some(b));
    CloseOthersStops(s, s.order, i);
    FlatMapNone(DeltaOf, prefix);
    FlatMapSnoc(DeltaOf, prefix, last);
    FlatMapOne(DeltaOf, e);
  }

  lemma DeltaIsPassed(s: State, e: Event, i: int, d: Delta, enabled: bool)
    requires e == DeltaEvent(Some(i), Some(d))
    ensures Deltas(StepDelta(s, e, i, d, enabled).1) == if IsKept(s.dropped, e, enabled) then [Some(d)] else []
    ensures StepDelta(s, e, i, d, enabled).0.dropped == s.dropped
  {
    var out := StepDelta(s, e, i, d, enabled).1;
    if |out| == 1 {
      assert out == [out[0]];
      FlatMapOne(DeltaOf, out[0]);
    } else if |out| == 2 {
      assert out == [out[0], out[1]];
      FlatMapTwo(DeltaOf, out[0], out[1]);
    }
  }

  lemma StepKeepsDelta(s: State, e: Event, enabled: bool)
    ensures Deltas(Step(s, e, enabled).1)
            == if e.DeltaEvent? && IsKept(s.dropped, e, enabled) then [e.delta] else []
    ensures Step(s, e, enabled).0.dropped == DropAfter(s.dropped, e, enabled)
  {
    match e
    case Start(Some(i), Some(b)) => StartHasNoDeltas(s, e, i, b, enabled);
    case DeltaEvent(Some(i), Some(d)) => DeltaIsPassed(s, e, i, d, enabled);
    case Stop(Some(i)) =>
      if Step(s, e, enabled).1 != [] {
        FlatMapOne(DeltaOf, Step(s, e, enabled).1[0]);
      }
    case _ => FlatMapOne(DeltaOf, e);
  }

  /** Conservation, for every event sequence whatsoever: the downstream deltas are the kept
      upstream deltas, unchanged and in order. */
  lemma {:induction false} DeltasAreConserved(s: State, events: seq<Event>, enabled: bool)
    ensures Deltas(Repair(s, events, enabled).1) == Kept(s.dropped, events, enabled)
    decreases |events|
  {
    if events != [] {
      var s1, out1, out2 := RepairCons(s, events, enabled);
      StepKeepsDelta(s, events[0], enabled);
      DeltasAreConserved(s1, events[1..], enabled);
      FlatMapAppend(DeltaOf, out1, out2);
    }
  }

  // ---------------------------------------------------------------- deltas, by block

  /** The kept upstream deltas of one upstream index. */
  function KeptOf(dropped: set<int>, events: seq<Event>, enabled: bool, i: int): seq<Delta>
    decreases |events|
  {
    if events == [] then []
    else
      (match events[0]
       case DeltaEvent(Some(j), Some(d)) => if j == i && IsKept(dropped, events[0], enabled) then [d] else []
       case _ => [])
      + KeptOf(DropAfter(dropped, events[0], enabled), events[1..], enabled, i)
  }

  predicate Into(log: seq<int>, down: int, i: int) {
    0 <= down < |log| && log[down] == i
  }

  function IntoOf(e: Event, log: seq<int>, i: int): seq<Delta> {
    match e
    case DeltaEvent(Some(down), Some(d)) => if Into(log, down, i) then [d] else []
    case _ => []
  }

  /** The deltas written into downstream blocks that were opened for one upstream index. */
  function DeltasInto(out: seq<Event>, log: seq<int>, i: int): seq<Delta> {
    FlatMap(e => IntoOf(e, log, i), out)
  }

  /** A delta that is passed on as it is, with its upstream index: one of no known kind, or a
      thinking delta for an index that was never used. */
  predicate RawDelta(w: Used, e: Event, enabled: bool) {
    match e
    case DeltaEvent(Some(i), Some(d)) =>
      i !in w.dropped && !ShouldDrop(d.kind, enabled) && (DeltaBlockKind(d.kind).None? || Strays(w, e, enabled))
    case _ => false
  }

  predicate NoRawDeltas(w: Used, events: seq<Event>, enabled: bool)
    decreases |events|
  {
    events == []
    || (!RawDelta(w, events[0], enabled) && NoRawDeltas(UsedAfter(w, events[0], enabled), events[1..], enabled))
  }

  ghost predicate LogInv(s: State, log: seq<int>) {
    |log| == s.next && forall i :: Logged(s, log, i)
  }

  lemma {:induction false} CloseOthersKeepsDown(s: State, order: seq<int>, current: int, k: int)
    ensures var t := CloseOthers(s, order, current).0;
            && (k in t.segs <==> k in s.segs) && t.next == s.next
            && (k in s.segs ==> t.segs[k].down == s.segs[k].down)
    decreases |order|
  {
    if order != [] {
      CloseOthersKeepsDown(CloseOne(s, order[0], current).0, order[1..], current, k);
    }
  }

  lemma StepKeepsLog(s: State, log: seq<int>, e: Event, enabled: bool)
    requires LogInv(s, log)
    ensures LogInv(Step(s, e, enabled).0, log + OpenedBy(s, e, enabled))
  {
    var t, log' := Step(s, e, enabled).0, log + OpenedBy(s, e, enabled);
    if e.Start? && e.index.Some? {
      CloseOthersKeepsDown(s, s.order, e.index.value, 0);
    }
    forall i
      ensures Logged(t, log', i)
    {
      assert Logged(s, log, i);
      if e.Start? && e.index.Some? {
        CloseOthersKeepsDown(s, s.order, e.index.value, i);
      }
    }
  }

  lemma DeltaAttributes(s: State, w: Used, log: seq<int>, e: Event, enabled: bool, all: seq<int>, i: int)
    requires LogInv(s, log) && Knows(s, w) && e.DeltaEvent? && !RawDelta(w, e, enabled)
    requires log + OpenedBy(s, e, enabled) <= all
    ensures DeltasInto(Step(s, e, enabled).1, all, i) == KeptOf(s.dropped, [e], enabled, i)
  {
    var out := Step(s, e, enabled).1;
    assert [e][1..] == [];
    if e.index.None? || e.delta.None? {
      FlatMapOne(e => IntoOf(e, all, i), e);
    } else if IsKept(s.dropped, e, enabled) {
      var j, d := e.index.value, e.delta.value;
      assert Logged(s, log, j);
      if j in s.segs && s.segs[j].open {
        assert all[s.segs[j].down] == j;
        assert out == [DeltaEvent(Some(s.segs[j].down), Some(d))];
        FlatMapOne(e => IntoOf(e, all, i), out[0]);
      } else {
        assert OpenedBy(s, e, enabled) == [j];
        assert all[s.next] == j;
        assert out == [out[0], DeltaEvent(Some(s.next), Some(d))];
        FlatMapTwo(e => IntoOf(e, all, i), out[0], out[1]);
      }
    }
  }

  /** The single delta a step passes on goes to a block of its own upstream index. */
  lemma StepAttributes(s: State, w: Used, log: seq<int>, e: Event, enabled: bool, later: seq<int>, i: int)
    requires LogInv(s, log) && Knows(s, w) && !RawDelta(w, e, enabled)
    ensures var all := log + OpenedBy(s, e, enabled) + later;
            DeltasInto(Step(s, e, enabled).1, all, i) == KeptOf(s.dropped, [e], enabled, i)
  {
    var all := log + OpenedBy(s, e, enabled) + later;
    var out := Step(s, e, enabled).1;
    assert [e][1..] == [];
    if e.DeltaEvent? {
      DeltaAttributes(s, w, log, e, enabled, all, i);
    } else {
      if e.Start? && e.index.Some? {
        CloseOthersStops(s, s.order, e.index.value);
      }
      FlatMapNone(e => IntoOf(e, all, i), out);
    }
  }

  lemma KeptOfCons(dropped: set<int>, events: seq<Event>, enabled: bool, i: int)
    requires events != []
    ensures KeptOf(dropped, events, enabled, i)
            == KeptOf(dropped, [events[0]], enabled, i)
               + KeptOf(DropAfter(dropped, events[0], enabled), events[1..], enabled, i)
  {
    assert [events[0]][1..] == [];
  }

  lemma {:induction false} ContentStaysInItsBlock(s: State, w: Used, log: seq<int>, events: seq<Event>,
                                                  enabled: bool, i: int)
    requires LogInv(s, log) && Knows(s, w) && NoRawDeltas(w, events, enabled)
    ensures DeltasInto(Repair(s, events, enabled).1, log + Log(s, events, enabled), i)
            == KeptOf(s.dropped, events, enabled, i)
    decreases |events|
  {
    if events != [] {
      var e := events[0];
      var s1, out1, out2 := RepairCons(s, events, enabled);
      var now, later := OpenedBy(s, e, enabled), Log(s1, events[1..], enabled);
      StepKnows(s, w, e, enabled);
      StepKeepsLog(s, log, e, enabled);
      ContentStaysInItsBlock(s1, UsedAfter(w, e, enabled), log + now, events[1..], enabled, i);
      StepAttributes(s, w, log, e, enabled, later, i);
      StepKeepsDelta(s, e, enabled);
      ConcatAssoc(log, now, later);
      FlatMapAppend(e => IntoOf(e, log + (now + later), i), out1, out2);
      KeptOfCons(s.dropped, events, enabled, i);
    }
  }

  /** For every stream without raw deltas, disciplined or not, and every upstream index: what
      arrives in the downstream blocks opened for that index is exactly what upstream sent for
      it, in order. */
  lemma ContentOfEachBlockIsConserved(events: seq<Event>, enabled: bool, i: int)
    requires NoRawDeltas(NONE, events, enabled)
    ensures DeltasInto(Repair(INIT, events, enabled).1, Log(INIT, events, enabled), i)
            == KeptOf({}, events, enabled, i)
  {
    ContentStaysInItsBlock(INIT, NONE, [], events, enabled, i);
    assert [] + Log(INIT, events, enabled) == Log(INIT, events, enabled);
  }

  // ---------------------------------------------------------------- numbering

  function StartOf(e: Event): seq<Option<int>> {
    if e.Start? then [e.index] else []
  }

  function StartIndices(out: seq<Event>): seq<Option<int>> {
    FlatMap(StartOf, out)
  }

  function CountFrom(next: nat, n: nat): seq<Option<int>>
    decreases n
  {
    if n == 0 then [] else [Some(next)] + CountFrom(next + 1, n - 1)
  }

  lemma {:induction false} CountAppend(next: nat, m: nat, n: nat)
    ensures CountFrom(next, m) + CountFrom(next + m, n) == CountFrom(next, m + n)
    decreases m
  {
    if m == 0 {
      assert [] + CountFrom(next, n) == CountFrom(next, n);
    } else {
      CountAppend(next + 1, m - 1, n);
    }
  }

  lemma StartNumbers(s: State, e: Event, i: int, b: Block, enabled: bool)
    requires e == Start(Some(i), Some(b)) && b.kind.Some?
    ensures StartIndices(StepStart(s, e, i, b, enabled).1)
            == if ShouldDrop(b.kind, enabled) then [] else [Some(s.next)]
    ensures StepStart(s, e, i, b, enabled).0.next == s.next + if ShouldDrop(b.kind, enabled) then 0 else 1
  {
    CloseOthersKeeps(s, s.order, i);
    var (s1, prefix) := CloseOthers(s, s.order, i);
    var last := Start(Some(s1.next), Some(b));
    CloseOthersStops(s, s.order, i);
    FlatMapNone(StartOf, prefix);
    FlatMapSnoc(StartOf, prefix, last);
  }

  lemma DeltaNumbers(s: State, e: Event, i: int, d: Delta, enabled: bool)
    requires e == DeltaEvent(Some(i), Some(d))
    ensures var (t, out) := StepDelta(s, e, i, d, enabled);
            || (t.next == s.next && StartIndices(out) == [])
            || (t.next == s.next + 1 && StartIndices(out) == [Some(s.next)])
  {
    var out := StepDelta(s, e, i, d, enabled).1;
    if |out| == 1 {
      assert out == [out[0]];
      FlatMapOne(StartOf, out[0]);
    } else if |out| == 2 {
      assert out == [out[0], out[1]];
      FlatMapTwo(StartOf, out[0], out[1]);
    }
  }

  lemma StepNumbers(s: State, e: Event, enabled: bool)
    requires e.Start? ==> e.index.Some? && e.block.Some? && e.block.value.kind.Some?
    ensures Numbered(Step(s, e, enabled).1, s.next, Step(s, e, enabled).0.next)
  {
    assert CountFrom(s.next, 1) == [Some(s.next)] + CountFrom(s.next + 1, 0);
    match e
    case Start(Some(i), Some(b)) => StartNumbers(s, e, i, b, enabled);
    case DeltaEvent(Some(i), Some(d)) => DeltaNumbers(s, e, i, d, enabled);
    case Stop(Some(i)) =>
      if Step(s, e, enabled).1 != [] {
        FlatMapOne(StartOf, Step(s, e, enabled).1[0]);
      }
    case _ => FlatMapOne(StartOf, e);
  }

  /** The blocks started are numbered from `lo` up to below `hi`. */
  predicate Numbered(out: seq<Event>, lo: nat, hi: nat) {
    lo <= hi && StartIndices(out) == CountFrom(lo, hi - lo)
  }

  lemma NumbersContinue(a: seq<Event>, b: seq<Event>, lo: nat, mid: nat, hi: nat)
    requires Numbered(a, lo, mid) && Numbered(b, mid, hi)
    ensures Numbered(a + b, lo, hi)
  {
    FlatMapAppend(StartOf, a, b);
    CountAppend(lo, mid - lo, hi - mid);
  }

  predicate WellStarted(events: seq<Event>) {
    events == []
    || ((events[0].Start? ==> events[0].index.Some? && events[0].block.Some? && events[0].block.value.kind.Some?)
        && WellStarted(events[1..]))
  }

  /** Downstream blocks are numbered 0, 1, 2 and so on, in the order of their starts. */
  lemma {:induction false} StartsAreNumbered(s: State, events: seq<Event>, enabled: bool)
    requires WellStarted(events)
    ensures Numbered(Repair(s, events, enabled).1, s.next, Repair(s, events, enabled).0.next)
    decreases |events|
  {
    if events != [] {
      var s1, out1, out2 := RepairCons(s, events, enabled);
      StepNumbers(s, events[0], enabled);
      StartsAreNumbered(s1, events[1..], enabled);
      NumbersContinue(out1, out2, s.next, s1.next, Repair(s1, events[1..], enabled).0.next);
    }
  }

  // ---------------------------------------------------------------- thinking disabled

  predicate Thinkish(kind: Option<string>) {
    ShouldDrop(kind, false)
  }

  /** A downstream event that shows thinking: a start of a thinking block or a delta for one. */
  predicate ShowsThinking(e: Event) {
    match e
    case Start(_, Some(b)) => Thinkish(b.kind)
    case DeltaEvent(_, Some(d)) => Thinkish(d.kind) || d.kind == Some("signature_delta")
    case _ => false
  }

  ghost predicate ThinkingFree(out: seq<Event>) {
    forall e :: e in out ==> !ShowsThinking(e)
  }

  /** An upstream event that gets past the policy: thinking without a usable index, or a
      signature for an index whose start was not dropped. */
  predicate Leaks(dropped: set<int>, e: Event) {
    && ShowsThinking(e)
    && (e.index.None? || (e.DeltaEvent? && e.index.value !in dropped && !Thinkish(e.delta.value.kind)))
  }

  predicate LeaksAny(dropped: set<int>, events: seq<Event>)
    decreases |events|
  {
    events != []
    && (Leaks(dropped, events[0]) || LeaksAny(DropAfter(dropped, events[0], false), events[1..]))
  }

  lemma PlainKinds()
    ensures !Thinkish(Some("text")) && !Thinkish(Some("tool_use"))
    ensures !Thinkish(Some("signature_delta"))
    ensures !Thinkish(Some("text_delta")) && !Thinkish(Some("input_json_delta"))
  {
    NotContained("text", "thinking");
    NotContained("tool_use", "thinking");
    NotContained("signature_delta", "thinking");
    NotContained("text_delta", "thinking");
    NotContained("input_json_delta", "thinking");
  }

  lemma NotContained(s: string, sub: string)
    requires |sub| > 1
    requires forall j :: 0 <= j < |s| - 1 ==> s[j] != sub[0] || s[j + 1] != sub[1]
    ensures !Contains(s, sub)
  {
    FindIsFirst(s, sub);
    forall j: nat
      ensures !OccursAt(s, sub, j)
    {
      if j + |sub| <= |s| {
        var part := s[j..j + |sub|];
        assert part[0] == s[j] && part[1] == s[j + 1];
      }
    }
  }

  lemma StopsAreThinkingFree(out: seq<Event>)
    requires OnlyStops(out)
    ensures ThinkingFree(out)
  {
  }

  lemma FreeAppend(a: seq<Event>, b: seq<Event>)
    ensures ThinkingFree(a + b) <==> ThinkingFree(a) && ThinkingFree(b)
  {
    assert forall e :: e in a + b <==> e in a || e in b;
  }

  lemma StartShowsThinking(s: State, e: Event, i: int, b: Block)
    requires e == Start(Some(i), Some(b))
    ensures ThinkingFree(StepStart(s, e, i, b, false).1)
  {
    var (s1, prefix) := CloseOthers(s, s.order, i);
    CloseOthersStops(s, s.order, i);
    StopsAreThinkingFree(prefix);
    FreeAppend(prefix, [Start(Some(s1.next), Some(b))]);
  }

  lemma DeltaShowsThinking(s: State, e: Event, i: int, d: Delta)
    requires e == DeltaEvent(Some(i), Some(d))
    ensures ThinkingFree(StepDelta(s, e, i, d, false).1) <==> !Leaks(s.dropped, e)
  {
    PlainKinds();
    var out := StepDelta(s, e, i, d, false).1;
    if i !in s.dropped && !ShouldDrop(d.kind, false) {
      var last := DeltaEvent(out[|out| - 1].index, Some(d));
      assert out[|out| - 1] == last && last in out;
      if |out| == 2 {
        assert out[0].block.value.kind == DeltaBlockKind(d.kind);
      }
    }
  }

  lemma StepShowsThinking(s: State, e: Event)
    ensures ThinkingFree(Step(s, e, false).1) <==> !Leaks(s.dropped, e)
  {
    match e
    case Start(Some(i), Some(b)) => StartShowsThinking(s, e, i, b);
    case DeltaEvent(Some(i), Some(d)) => DeltaShowsThinking(s, e, i, d);
    case Stop(_) =>
    case _ => assert Step(s, e, false).1[0] == e;
  }

  /** Exactly when the thinking policy holds. With thinking disabled, and for every event
      sequence, no thinking reaches the client if and only if no upstream event leaks. */
  lemma {:induction false} ThinkingPolicyExactly(s: State, events: seq<Event>)
    ensures ThinkingFree(Repair(s, events, false).1) <==> !LeaksAny(s.dropped, events)
    decreases |events|
  {
    if events != [] {
      var s1, out1, out2 := RepairCons(s, events, false);
      StepShowsThinking(s, events[0]);
      StepKeepsDelta(s, events[0], false);
      ThinkingPolicyExactly(s1, events[1..]);
      FreeAppend(out1, out2);
    }
  }

  /** A signature that arrives for a text block does leak: the repair answers it with the start
      of a thinking block although thinking is disabled. */
  lemma SignatureLeaks()
    ensures var events := [Start(Some(0), Some(Block(Some("text"), "", None, None, None))),
                           Stop(Some(0)),
                           DeltaEvent(Some(0), Some(Delta(Some("signature_delta"), "")))];
            !ThinkingFree(Repair(INIT, events, false).1)
  {
    var a := Start(Some(0), Some(Block(Some("text"), "", None, None, None)));
    var z := DeltaEvent(Some(0), Some(Delta(Some("signature_delta"), "")));
    var events := [a, Stop(Some(0)), z];
    PlainKinds();
    assert events[1..] == [Stop(Some(0)), z] && events[1..][1..] == [z];
    assert Leaks({}, z);
    assert LeaksAny({}, [z]);
    assert LeaksAny({}, [Stop(Some(0)), z]);
    ThinkingPolicyExactly(INIT, events);
  }

  // ---------------------------------------------------------------- tool identity

  /** The last start that upstream sent for each index and that was not dropped. */
  function BegunAfter(begun: map<int, Block>, e: Event, enabled: bool): map<int, Block> {
    match e
    case Start(Some(i), Some(b)) =>
      if ShouldDrop(b.kind, enabled) || b.kind.None? then begun else begun[i := b]
    case _ => begun
  }

  predicate SameTool(begun: map<int, Block>, i: int, b: Block) {
    b.kind == Some("tool_use") && i in begun && begun[i].kind == Some("tool_use") ==>
      && (begun[i].id.Some? && begun[i].id != Some(Given("")) ==> b.id == begun[i].id)
      && (begun[i].name.Some? ==> b.name == begun[i].name)
      && (begun[i].input.Some? ==> b.input == begun[i].input)
  }

  ghost predicate StartsKeepTool(begun: map<int, Block>, i: int, out: seq<Event>) {
    forall e :: e in out && e.Start? && e.block.Some? ==> SameTool(begun, i, e.block.value)
  }

  /** Every start that is written for an upstream index carries the id, the name and the input
      which upstream gave the tool call there. */
  ghost predicate ToolsKeepIdentity(s: State, begun: map<int, Block>, events: seq<Event>, enabled: bool)
    decreases |events|
  {
    events != [] ==>
      var begun' := BegunAfter(begun, events[0], enabled);
      && (!events[0].Other? && events[0].index.Some? ==>
            StartsKeepTool(begun', events[0].index.value, Step(s, events[0], enabled).1))
      && ToolsKeepIdentity(Step(s, events[0], enabled).0, begun', events[1..], enabled)
  }

  ghost predicate Remembers(s: State, begun: map<int, Block>, i: int) {
    && (i in begun ==> i in s.segs && s.segs[i].lastStart == Some(begun[i]))
  }

  lemma {:induction false} CloseOthersRemembers(s: State, begun: map<int, Block>, order: seq<int>, current: int)
    requires forall i :: Remembers(s, begun, i)
    ensures forall i :: Remembers(CloseOthers(s, order, current).0, begun, i)
    decreases |order|
  {
    if order != [] {
      var s1 := CloseOne(s, order[0], current).0;
      forall i
        ensures Remembers(s1, begun, i)
      {
        assert Remembers(s, begun, i);
      }
      CloseOthersRemembers(s1, begun, order[1..], current);
    }
  }

  lemma StepRemembers(s: State, begun: map<int, Block>, e: Event, enabled: bool)
    requires forall i :: Remembers(s, begun, i)
    ensures forall i :: Remembers(Step(s, e, enabled).0, BegunAfter(begun, e, enabled), i)
    ensures !e.Other? && e.index.Some? ==>
              StartsKeepTool(BegunAfter(begun, e, enabled), e.index.value, Step(s, e, enabled).1)
  {
    var t, begun' := Step(s, e, enabled).0, BegunAfter(begun, e, enabled);
    if e.Start? && e.index.Some? {
      CloseOthersRemembers(s, begun, s.order, e.index.value);
      CloseOthersStops(s, s.order, e.index.value);
    }
    if !e.Other? && e.index.Some? {
      assert Remembers(s, begun, e.index.value);
    }
    forall i
      ensures Remembers(t, begun', i)
    {
      assert Remembers(s, begun, i);
      if e.Start? && e.index.Some? {
        assert Remembers(CloseOthers(s, s.order, e.index.value).0, begun, i);
      }
    }
  }

  lemma {:induction false} ReopenedToolsKeepIdentity(s: State, begun: map<int, Block>,
                                                     events: seq<Event>, enabled: bool)
    requires forall i :: Remembers(s, begun, i)
    ensures ToolsKeepIdentity(s, begun, events, enabled)
    decreases |events|
  {
    if events != [] {
      StepRemembers(s, begun, events[0], enabled);
      ReopenedToolsKeepIdentity(Step(s, events[0], enabled).0, BegunAfter(begun, events[0], enabled),
                                events[1..], enabled);
    }
  }
}
