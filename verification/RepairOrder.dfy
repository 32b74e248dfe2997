/** Where everything stands in a repaired stream: it is made of one piece for each upstream event,
    in their order, and what a piece may be follows from its event. */
module RepairOrder {
  import opened Text
  import opened StreamContract
  import opened BlockRepair
  import opened RepairContract
  import opened RepairContent

  /** Thinking is dropped exactly when it is disabled: every kind that has "thinking" in it. */
  lemma DropsExactly(kind: Option<string>, enabled: bool)
    ensures ShouldDrop(kind, enabled)
            <==> !enabled && kind.Some? && exists j :: OccursAt(kind.value, "thinking", j)
  {
    if kind.Some? {
      var k := kind.value;
      FindIsFirst(k, "thinking");
      if StartsWith(k, "redacted_thinking") {
        var prefix := k[..|"redacted_thinking"|];
        assert prefix[9..17] == "thinking";
        assert k[9..17] == prefix[9..17];
        assert OccursAt(k, "thinking", 9);
      }
    }
  }

  /** Upstream indices dropped in front of an event. */
  function DroppedBefore(dropped: set<int>, events: seq<Event>, k: nat, enabled: bool): set<int>
    requires k <= |events|
  {
    if k == 0 then dropped else DropAfter(DroppedBefore(dropped, events, k - 1, enabled), events[k - 1], enabled)
  }

  /** A block made up for a delta: of the delta's kind, empty, and complete if it is a tool call. */
  predicate MadeUp(b: Block, d: Delta) {
    && b.kind.Some? && b.kind == DeltaBlockKind(d.kind) && b.text == ""
    && (b.kind == Some("tool_use") ==> b.id.Some? && b.id != Some(Given("")) && b.name.Some? && b.input.Some?)
  }

  predicate Malformed(e: Event) {
    match e
    case Start(Some(_), Some(b)) => b.kind.None?
    case DeltaEvent(Some(_), Some(_)) => false
    case Stop(Some(_)) => false
    case Other(_, _) => false
    case _ => true
  }

  /** What may become of an event. An event of the message passes once and alone. A start that is
      not dropped passes with its own block behind the stops of others. A delta that is not dropped
      passes with its own content, by itself or behind the start of a block made up for it in the
      same place. A stop passes as one stop or not at all. */
  predicate PieceFits(dropped: set<int>, e: Event, piece: seq<Event>, enabled: bool) {
    if Malformed(e) then piece == [e]
    else
      match e
      case Other(_, _) => piece == [e]
      case Start(_, Some(b)) =>
        if ShouldDrop(b.kind, enabled) then piece == []
        else piece != [] && piece[|piece| - 1].Start? && piece[|piece| - 1].block == Some(b) && OnlyStops(piece[..|piece| - 1])
      case DeltaEvent(Some(i), Some(d)) =>
        if i in dropped || ShouldDrop(d.kind, enabled) then piece == []
        else
          && piece != [] && |piece| <= 2 && piece[|piece| - 1].DeltaEvent? && piece[|piece| - 1].delta == Some(d)
          && (|piece| == 2 ==> piece[0].Start? && piece[0].index == piece[1].index && piece[0].block.Some?
                               && MadeUp(piece[0].block.value, d))
      case Stop(_) => |piece| <= 1 && OnlyStops(piece)
      case _ => false
  }

  lemma StartFits(s: State, e: Event, i: int, b: Block, enabled: bool)
    requires e == Start(Some(i), Some(b))
    ensures PieceFits(s.dropped, e, StepStart(s, e, i, b, enabled).1, enabled)
  {
    if !ShouldDrop(b.kind, enabled) && b.kind.Some? {
      var (s1, prefix) := CloseOthers(s, s.order, i);
      CloseOthersStops(s, s.order, i);
      var piece := prefix + [Start(Some(s1.next), Some(b))];
      assert piece[..|piece| - 1] == prefix;
    }
  }

  lemma DeltaFitsPiece(s: State, e: Event, i: int, d: Delta, enabled: bool)
    requires e == DeltaEvent(Some(i), Some(d))
    ensures PieceFits(s.dropped, e, StepDelta(s, e, i, d, enabled).1, enabled)
  {
  }

  lemma StepFits(s: State, e: Event, enabled: bool)
    ensures PieceFits(s.dropped, e, Step(s, e, enabled).1, enabled)
  {
    match e
    case Start(Some(i), Some(b)) => StartFits(s, e, i, b, enabled);
    case DeltaEvent(Some(i), Some(d)) => DeltaFitsPiece(s, e, i, d, enabled);
    case _ =>
  }

  lemma {:induction false} DroppedShift(dropped: set<int>, events: seq<Event>, k: nat, enabled: bool)
    requires 0 < k <= |events|
    ensures DroppedBefore(dropped, events, k, enabled)
            == DroppedBefore(DropAfter(dropped, events[0], enabled), events[1..], k - 1, enabled)
  {
    if k > 1 {
      DroppedShift(dropped, events, k - 1, enabled);
    }
  }

  ghost predicate Fitting(dropped: set<int>, events: seq<Event>, pieces: seq<seq<Event>>, enabled: bool) {
    |pieces| == |events|
    && forall k :: 0 <= k < |events| ==> PieceFits(DroppedBefore(dropped, events, k, enabled), events[k], pieces[k], enabled)
  }

  lemma FitsBehind(dropped: set<int>, events: seq<Event>, piece: seq<Event>, pieces: seq<seq<Event>>, enabled: bool)
    requires events != [] && PieceFits(dropped, events[0], piece, enabled)
    requires Fitting(DropAfter(dropped, events[0], enabled), events[1..], pieces, enabled)
    ensures Fitting(dropped, events, [piece] + pieces, enabled)
  {
    forall k | 0 <= k < |events|
      ensures PieceFits(DroppedBefore(dropped, events, k, enabled), events[k], ([piece] + pieces)[k], enabled)
    {
      if k > 0 {
        DroppedShift(dropped, events, k, enabled);
        assert events[k] == events[1..][k - 1];
      }
    }
  }

  /** For every event sequence the repaired stream is made of one fitting piece for each event. */
  lemma {:induction false} RepairedInPieces(s: State, events: seq<Event>, enabled: bool) returns (pieces: seq<seq<Event>>)
    ensures Flatten(pieces) == Repair(s, events, enabled).1 && Fitting(s.dropped, events, pieces, enabled)
    decreases |events|
  {
    if events == [] {
      pieces := [];
    } else {
      var s1, out1, out2 := RepairCons(s, events, enabled);
      StepFits(s, events[0], enabled);
      StepKeepsDelta(s, events[0], enabled);
      var rest := RepairedInPieces(s1, events[1..], enabled);
      pieces := [out1] + rest;
      assert pieces[1..] == rest;
      FitsBehind(s.dropped, events, out1, rest, enabled);
    }
  }

  function OtherOf(e: Event): seq<Event> {
    if e.Other? then [e] else []
  }

  lemma OthersOfPiece(dropped: set<int>, e: Event, piece: seq<Event>, enabled: bool)
    requires PieceFits(dropped, e, piece, enabled)
    ensures FlatMap(OtherOf, piece) == OtherOf(e)
  {
    if e.Other? {
      FlatMapOne(OtherOf, e);
    } else {
      assert forall x :: x in piece ==> x.Start? || x.DeltaEvent? || x.Stop? by {
        if e.Start? && piece != [] {
          assert piece == piece[..|piece| - 1] + [piece[|piece| - 1]];
        }
      }
      FlatMapNone(OtherOf, piece);
    }
  }

  /** The events of the message reach the client each once and in their order. */
  lemma {:induction false} MessageEventsAreConserved(s: State, events: seq<Event>, enabled: bool)
    ensures FlatMap(OtherOf, Repair(s, events, enabled).1) == FlatMap(OtherOf, events)
    decreases |events|
  {
    if events != [] {
      var s1, out1, out2 := RepairCons(s, events, enabled);
      StepFits(s, events[0], enabled);
      OthersOfPiece(s.dropped, events[0], out1, enabled);
      MessageEventsAreConserved(s1, events[1..], enabled);
      FlatMapAppend(OtherOf, out1, out2);
    }
  }

  /** What passes of an event besides starts and stops: the event itself if it is one of the message,
      the content of a delta that is not dropped. */
  function PassOf(e: Event): seq<Event> {
    match e
    case Other(_, _) => [e]
    case DeltaEvent(_, d) => [DeltaEvent(None, d)]
    case _ => []
  }

  function Passing(dropped: set<int>, events: seq<Event>, enabled: bool): seq<Event>
    decreases |events|
  {
    if events == [] then []
    else
      (if IsKept(dropped, events[0], enabled) then PassOf(events[0]) else [])
      + Passing(DropAfter(dropped, events[0], enabled), events[1..], enabled)
  }

  lemma PassOfDelta(dropped: set<int>, e: Event, piece: seq<Event>, enabled: bool)
    requires PieceFits(dropped, e, piece, enabled) && e.DeltaEvent?
    ensures FlatMap(PassOf, piece) == if IsKept(dropped, e, enabled) then PassOf(e) else []
  {
    if |piece| == 2 {
      assert piece == [piece[0], piece[1]];
      FlatMapTwo(PassOf, piece[0], piece[1]);
    } else if |piece| == 1 {
      assert piece == [piece[0]];
      FlatMapOne(PassOf, piece[0]);
    }
  }

  lemma NothingPasses(piece: seq<Event>)
    requires forall x :: x in piece ==> x.Start? || x.Stop?
    ensures FlatMap(PassOf, piece) == []
  {
    FlatMapNone(PassOf, piece);
  }

  lemma PassOfPiece(dropped: set<int>, e: Event, piece: seq<Event>, enabled: bool)
    requires PieceFits(dropped, e, piece, enabled)
    ensures FlatMap(PassOf, piece) == if IsKept(dropped, e, enabled) then PassOf(e) else []
  {
    match e
    case DeltaEvent(_, _) => PassOfDelta(dropped, e, piece, enabled);
    case Other(_, _) => FlatMapOne(PassOf, e);
    case Stop(_) => NothingPasses(piece);
    case Start(_, _) =>
      if piece != [] {
        assert piece == piece[..|piece| - 1] + [piece[|piece| - 1]];
      }
      NothingPasses(piece);
  }

  /** Message events and deltas keep their places among each other. */
  lemma {:induction false} DeltasAndMessageEventsInOrder(s: State, events: seq<Event>, enabled: bool)
    ensures FlatMap(PassOf, Repair(s, events, enabled).1) == Passing(s.dropped, events, enabled)
    decreases |events|
  {
    if events != [] {
      var s1, out1, out2 := RepairCons(s, events, enabled);
      StepFits(s, events[0], enabled);
      StepKeepsDelta(s, events[0], enabled);
      PassOfPiece(s.dropped, events[0], out1, enabled);
      DeltasAndMessageEventsInOrder(s1, events[1..], enabled);
      FlatMapAppend(PassOf, out1, out2);
    }
  }
}
