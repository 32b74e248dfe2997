/** Repair of native Anthropic streams (core/anthropic/native_sse_block_policy.py): blocks are
    renumbered, thinking is dropped when it is disabled, overlapping blocks are closed early and
    opened again, and the stops that became superfluous are suppressed. */
module BlockRepair {
  import opened Text
  import opened StreamContract

  /** What is known of one upstream block: the downstream block it writes to now. */
  datatype Segment = Segment(blockType: string, down: nat, open: bool, lastStart: Option<Block>)

  /** `order` lists the keys of `segs` in the order in which they were first inserted. */
  datatype State = State(next: nat, order: seq<int>, segs: map<int, Segment>,
                         dropped: set<int>, pending: set<int>)

  const INIT := State(0, [], map[], {}, {})

  function DeltaBlockKind(deltaKind: Option<string>): Option<string> {
    if deltaKind == Some("thinking_delta") || deltaKind == Some("signature_delta") then Some("thinking")
    else if deltaKind == Some("text_delta") then Some("text")
    else if deltaKind == Some("input_json_delta") then Some("tool_use")
    else None
  }

  predicate ShouldDrop(kind: Option<string>, enabled: bool) {
    match kind
    case None => false
    case Some(k) =>
      if StartsWith(k, "redacted_thinking") then !enabled
      else !enabled && Contains(k, "thinking")
  }

  /** The block of a start event that the repair makes up. */
  function SyntheticStart(kind: string, upstream: int, stored: Option<Block>): Block {
    if kind == "tool_use" then
      match stored
      case Some(b) =>
        Block(Some("tool_use"), "",
              Some(if b.id.None? || b.id == Some(Given("")) then Made(upstream) else b.id.value),
              Some(b.name.GetOr("")), Some(b.input.GetOr("{}")))
      case None => Block(Some("tool_use"), "", Some(Made(upstream)), Some(""), Some("{}"))
    else if kind == "thinking" then Block(Some("thinking"), "", None, None, None)
    else Block(Some("text"), "", None, None, None)
  }

  /** A stored start block is only used for a tool call. */
  function StoredTool(carry: Option<Block>): Option<Block> {
    if carry.Some? && carry.value.kind == Some("tool_use") then carry else None
  }

  /** Closing one open block early: its own stop will come later and must not be passed on. */
  function CloseOne(s: State, k: int, current: int): (State, seq<Event>) {
    if k != current && k in s.segs && s.segs[k].open then
      (s.(segs := s.segs[k := s.segs[k].(open := false)], pending := s.pending + {k}),
       [Stop(Some(s.segs[k].down))])
    else (s, [])
  }

  /** Closing every open block but the current one, in the order of the dictionary. */
  function CloseOthers(s: State, order: seq<int>, current: int): (State, seq<Event>)
    decreases |order|
  {
    if order == [] then (s, [])
    else
      var (s1, out1) := CloseOne(s, order[0], current);
      var (s2, out2) := CloseOthers(s1, order[1..], current);
      (s2, out1 + out2)
  }

  /** A new downstream block for an upstream index. */
  function Allocate(s: State, i: int, blockType: string, lastStart: Option<Block>): State {
    s.(next := s.next + 1,
       order := if i in s.segs then s.order else s.order + [i],
       segs := s.segs[i := Segment(blockType, s.next, true, lastStart)])
  }

  function StepStart(s: State, e: Event, i: int, b: Block, enabled: bool): (State, seq<Event>) {
    if ShouldDrop(b.kind, enabled) then (s.(dropped := s.dropped + {i}), [])
    else if b.kind.None? then (s, [e])
    else
      var (s1, prefix) := CloseOthers(s, s.order, i);
      (Allocate(s1, i, b.kind.value, Some(b)), prefix + [Start(Some(s1.next), Some(b))])
  }

  /** Opening a block on the occasion of a delta. */
  function OpenForDelta(s: State, i: int, d: Delta, kind: string, block: Block, lastStart: Option<Block>)
    : (State, seq<Event>)
  {
    (Allocate(s, i, kind, lastStart),
     [Start(Some(s.next), Some(block)), DeltaEvent(Some(s.next), Some(d))])
  }

  function StepDelta(s: State, e: Event, i: int, d: Delta, enabled: bool): (State, seq<Event>) {
    if i in s.dropped || ShouldDrop(d.kind, enabled) then (s, [])
    else
      match DeltaBlockKind(d.kind)
      case None => (s, [e])
      case Some(kind) =>
        if i in s.segs && s.segs[i].open then (s, [DeltaEvent(Some(s.segs[i].down), Some(d))])
        else if i in s.segs then
          var carry := s.segs[i].lastStart;
          OpenForDelta(s.(pending := s.pending - {i}), i, d, kind,
                       SyntheticStart(kind, i, StoredTool(carry)), carry)
        else if kind == "text" || kind == "tool_use" then
          var block := SyntheticStart(kind, i, None);
          OpenForDelta(s, i, d, kind, block, Some(block))
        else (s, [e])
  }

  function StepStop(s: State, e: Event, i: int, enabled: bool): (State, seq<Event>) {
    if i in s.dropped then (s, [])
    else if i in s.pending then (s.(pending := s.pending - {i}), [])
    else if i in s.segs && s.segs[i].open then
      (s.(segs := s.segs[i := s.segs[i].(open := false)]), [Stop(Some(s.segs[i].down))])
    else if i in s.segs || !enabled then (s, [])
    else (s, [e])
  }

  /** One upstream event and the downstream events it becomes; none where the event is
      swallowed. */
  function Step(s: State, e: Event, enabled: bool): (State, seq<Event>) {
    match e
    case Start(Some(i), Some(b)) => StepStart(s, e, i, b, enabled)
    case DeltaEvent(Some(i), Some(d)) => StepDelta(s, e, i, d, enabled)
    case Stop(Some(i)) => StepStop(s, e, i, enabled)
    case _ => (s, [e])
  }

  function Repair(s: State, events: seq<Event>, enabled: bool): (State, seq<Event>)
    decreases |events|
  {
    if events == [] then (s, [])
    else
      var (s1, out1) := Step(s, events[0], enabled);
      var (s2, out2) := Repair(s1, events[1..], enabled);
      (s2, out1 + out2)
  }

  /** `order` names the keys, and nothing else. */
  ghost predicate ValidOrder(s: State) {
    forall k :: k in s.order <==> k in s.segs
  }

  lemma {:induction false} CloseOthersKeeps(s: State, order: seq<int>, current: int)
    ensures var t := CloseOthers(s, order, current).0;
            && t.order == s.order && t.segs.Keys == s.segs.Keys
            && t.next == s.next && t.dropped == s.dropped
    decreases |order|
  {
    if order != [] {
      CloseOthersKeeps(CloseOne(s, order[0], current).0, order[1..], current);
    }
  }

  predicate OnlyStops(out: seq<Event>) {
    forall e :: e in out ==> e.Stop?
  }

  lemma {:induction false} CloseOthersStops(s: State, order: seq<int>, current: int)
    ensures OnlyStops(CloseOthers(s, order, current).1)
    decreases |order|
  {
    if order != [] {
      CloseOthersStops(CloseOne(s, order[0], current).0, order[1..], current);
    }
  }

  lemma StepKeepsOrder(s: State, e: Event, enabled: bool)
    requires ValidOrder(s)
    ensures ValidOrder(Step(s, e, enabled).0)
  {
    if e.Start? && e.index.Some? {
      CloseOthersKeeps(s, s.order, e.index.value);
    }
  }

  /** One round of the loop that closes the others. */
  lemma CloseOthersNext(s: State, order: seq<int>, n: nat, current: int, sofar: seq<Event>)
    requires n < |order|
    ensures var (s1, out1) := CloseOne(s, order[n], current);
            && CloseOthers(s, order[n..], current).0 == CloseOthers(s1, order[n + 1..], current).0
            && sofar + CloseOthers(s, order[n..], current).1
               == (sofar + out1) + CloseOthers(s1, order[n + 1..], current).1
  {
    assert order[n..][1..] == order[n + 1..];
    var (s1, out1) := CloseOne(s, order[n], current);
    ConcatAssoc(sofar, out1, CloseOthers(s1, order[n + 1..], current).1);
  }

  // ---------------------------------------------------------------- the policy object

  class NativeSseBlockPolicy {
    var nextIndex: nat
    var order: seq<int>
    var byUpstream: map<int, Segment>
    var droppedIndexes: set<int>
    var pendingSuppressedStops: set<int>

    ghost function Abs(): State
      reads this
    {
      State(nextIndex, order, byUpstream, droppedIndexes, pendingSuppressedStops)
    }

    constructor ()
      ensures Abs() == INIT && ValidOrder(Abs())
    {
      nextIndex := 0;
      order := [];
      byUpstream := map[];
      droppedIndexes := {};
      pendingSuppressedStops := {};
    }

    method SyntheticCloseOtherOpenBlocks(current: int) returns (out: seq<Event>)
      requires ValidOrder(Abs())
      modifies this
      ensures Abs() == CloseOthers(old(Abs()), old(order), current).0
      ensures out == CloseOthers(old(Abs()), old(order), current).1
    {
      out := [];
      ghost var s, goal := Abs(), CloseOthers(Abs(), order, current);
      for n := 0 to |order|
        invariant order == s.order && byUpstream.Keys == s.segs.Keys
        invariant goal.0 == CloseOthers(Abs(), order[n..], current).0
        invariant goal.1 == out + CloseOthers(Abs(), order[n..], current).1
      {
        var upstream := order[n];
        var seg := byUpstream[upstream];
        CloseOthersNext(Abs(), order, n, current, out);
        if upstream == current || !seg.open {
          assert out + [] == out;
        } else {
          out := out + [Stop(Some(seg.down))];
          byUpstream := byUpstream[upstream := seg.(open := false)];
          pendingSuppressedStops := pendingSuppressedStops + {upstream};
        }
      }
    }

    method AllocateNewSegment(i: int, blockType: string, lastStart: Option<Block>) returns (index: nat)
      modifies this
      ensures index == old(nextIndex)
      ensures Abs() == Allocate(old(Abs()), i, blockType, lastStart)
    {
      index := nextIndex;
      nextIndex := nextIndex + 1;
      if i !in byUpstream {
        order := order + [i];
      }
      byUpstream := byUpstream[i := Segment(blockType, index, true, lastStart)];
    }

    method Transform(event: Event, enabled: bool) returns (out: seq<Event>)
      requires ValidOrder(Abs())
      modifies this
      ensures ValidOrder(Abs())
      ensures Abs() == Step(old(Abs()), event, enabled).0
      ensures out == Step(old(Abs()), event, enabled).1
    {
      StepKeepsOrder(Abs(), event, enabled);
      match event {
        case Start(Some(i), Some(b)) =>
          if ShouldDrop(b.kind, enabled) {
            droppedIndexes := droppedIndexes + {i};
            return [];
          }
          if b.kind.None? {
            return [event];
          }
          var prefix := SyntheticCloseOtherOpenBlocks(i);
          var index := AllocateNewSegment(i, b.kind.value, Some(b));
          return prefix + [Start(Some(index), Some(b))];
        case DeltaEvent(Some(i), Some(d)) =>
          if i in droppedIndexes {
            return [];
          }
          if ShouldDrop(d.kind, enabled) {
            return [];
          }
          var blockKind := DeltaBlockKind(d.kind);
          if blockKind.None? {
            return [event];
          }
          if i in byUpstream && byUpstream[i].open {
            return [DeltaEvent(Some(byUpstream[i].down), Some(d))];
          }
          if i in byUpstream {
            pendingSuppressedStops := pendingSuppressedStops - {i};
            var carry := byUpstream[i].lastStart;
            var index := AllocateNewSegment(i, blockKind.value, carry);
            var block := SyntheticStart(blockKind.value, i, StoredTool(carry));
            return [Start(Some(index), Some(block)), DeltaEvent(Some(index), Some(d))];
          }
          if blockKind.value == "text" || blockKind.value == "tool_use" {
            var block := SyntheticStart(blockKind.value, i, None);
            var index := AllocateNewSegment(i, blockKind.value, Some(block));
            return [Start(Some(index), Some(block)), DeltaEvent(Some(index), Some(d))];
          }
          return [event];
        case Stop(Some(i)) =>
          if i in droppedIndexes {
            return [];
          }
          if i in pendingSuppressedStops {
            pendingSuppressedStops := pendingSuppressedStops - {i};
            return [];
          }
          if i in byUpstream && byUpstream[i].open {
            var seg := byUpstream[i];
            byUpstream := byUpstream[i := seg.(open := false)];
            return [Stop(Some(seg.down))];
          }
          if i in byUpstream || !enabled {
            return [];
          }
          return [event];
        case _ =>
          return [event];
      }
    }
  }

  lemma RepairNext(s: State, events: seq<Event>, n: nat, enabled: bool, sofar: seq<Event>)
    requires n < |events|
    ensures var (s1, out1) := Step(s, events[n], enabled);
            sofar + Repair(s, events[n..], enabled).1
            == sofar + out1 + Repair(s1, events[n + 1..], enabled).1
  {
    assert events[n..][1..] == events[n + 1..];
    var (s1, out1) := Step(s, events[n], enabled);
    assert sofar + (out1 + Repair(s1, events[n + 1..], enabled).1)
        == sofar + out1 + Repair(s1, events[n + 1..], enabled).1;
  }

  /** A whole stream through one policy object. */
  method RepairStream(events: seq<Event>, enabled: bool) returns (out: seq<Event>)
    ensures out == Repair(INIT, events, enabled).1
  {
    var policy := new NativeSseBlockPolicy();
    out := [];
    ghost var goal := Repair(INIT, events, enabled).1;
    for n := 0 to |events|
      invariant ValidOrder(policy.Abs())
      invariant goal == out + Repair(policy.Abs(), events[n..], enabled).1
    {
      RepairNext(policy.Abs(), events, n, enabled, out);
      var more := policy.Transform(events[n], enabled);
      out := out + more;
    }
  }
}
