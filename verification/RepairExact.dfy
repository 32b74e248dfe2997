/** When exactly the repaired stream meets the stream contract, and when exactly at most one
    downstream block is open at a time. */
module RepairExact {
  import opened Text
  import opened StreamContract
  import opened BlockRepair
  import opened RepairContract

  // ---------------------------------------------------------------- unused indices

  /** The upstream indices that were used for a block, and those that were dropped. */
  datatype Used = Used(blocks: set<int>, dropped: set<int>)

  const NONE := Used({}, {})

  function UsedAfter(w: Used, e: Event, enabled: bool): Used {
    match e
    case Start(Some(i), Some(b)) =>
      if ShouldDrop(b.kind, enabled) then w.(dropped := w.dropped + {i})
      else if b.kind.None? then w
      else w.(blocks := w.blocks + {i})
    case DeltaEvent(Some(i), Some(d)) =>
      var kind := DeltaBlockKind(d.kind);
      if i !in w.dropped && !ShouldDrop(d.kind, enabled) && (kind == Some("text") || kind == Some("tool_use"))
      then w.(blocks := w.blocks + {i}) else w
    case _ => w
  }

  /** A stop or a thinking delta for an index that was never used is passed on as it is, and its
      upstream index is taken for a downstream one. */
  predicate Strays(w: Used, e: Event, enabled: bool) {
    match e
    case Stop(Some(i)) => enabled && i !in w.blocks && i !in w.dropped
    case DeltaEvent(Some(i), Some(d)) =>
      && i !in w.blocks && i !in w.dropped && !ShouldDrop(d.kind, enabled)
      && DeltaBlockKind(d.kind) == Some("thinking")
    case _ => false
  }

  predicate NoStrays(w: Used, events: seq<Event>, enabled: bool)
    decreases |events|
  {
    events == [] || (!Strays(w, events[0], enabled) && NoStrays(UsedAfter(w, events[0], enabled), events[1..], enabled))
  }

  ghost predicate Knows(s: State, w: Used) {
    s.segs.Keys == w.blocks && s.dropped == w.dropped && s.pending <= w.blocks
  }

  lemma {:induction false} CloseOthersPending(s: State, order: seq<int>, current: int)
    requires s.pending <= s.segs.Keys
    ensures var t := CloseOthers(s, order, current).0;
            t.pending <= t.segs.Keys && t.segs.Keys == s.segs.Keys && t.dropped == s.dropped
    decreases |order|
  {
    if order != [] {
      CloseOthersPending(CloseOne(s, order[0], current).0, order[1..], current);
    }
  }

  lemma StepKnows(s: State, w: Used, e: Event, enabled: bool)
    requires Knows(s, w)
    ensures Knows(Step(s, e, enabled).0, UsedAfter(w, e, enabled))
  {
    if e.Start? && e.index.Some? {
      CloseOthersPending(s, s.order, e.index.value);
    }
  }

  // ---------------------------------------------------------------- a block that is lost

  ghost predicate NotOwner(s: State, d: int, i: int) {
    i in s.segs && s.segs[i].open ==> s.segs[i].down != d
  }

  /** A block that is open downstream while no upstream index writes to it. */
  ghost predicate Orphan(s: State, c: Checker, d: int) {
    d in c.open && 0 <= d < s.next && forall i :: NotOwner(s, d, i)
  }

  ghost predicate StaysOpen(c: Option<Checker>, d: int) {
    c.Some? ==> d in c.value.open
  }

  lemma {:induction false} CloseOthersNotOwner(s: State, d: int, order: seq<int>, current: int)
    requires forall i :: i != current ==> NotOwner(s, d, i)
    ensures forall i :: i != current ==> NotOwner(CloseOthers(s, order, current).0, d, i)
    decreases |order|
  {
    if order != [] {
      var s1 := CloseOne(s, order[0], current).0;
      forall i | i != current
        ensures NotOwner(s1, d, i)
      {
        assert NotOwner(s, d, i);
      }
      CloseOthersNotOwner(s1, d, order[1..], current);
    }
  }

  lemma {:induction false} CloseOthersKeepsOpen(s: State, c: Checker, d: int, order: seq<int>,
                                                current: int, allowError: bool)
    requires d in c.open && forall i :: i != current ==> NotOwner(s, d, i)
    ensures StaysOpen(Check(c, CloseOthers(s, order, current).1, allowError), d)
    decreases |order|
  {
    if order != [] {
      var (s1, out1) := CloseOne(s, order[0], current);
      assert order[0] != current ==> NotOwner(s, d, order[0]);
      CloseOthersNotOwner(s, d, [order[0]], current);
      assert CloseOthers(s, [order[0]], current).0 == s1;
      var r := Check(c, out1, allowError);
      if out1 != [] {
        CheckOne(c, out1[0], allowError);
      }
      if r.Some? {
        CloseOthersKeepsOpen(s1, r.value, d, order[1..], current, allowError);
      }
      CheckAppend(c, out1, CloseOthers(s1, order[1..], current).1, allowError);
    }
  }

  lemma StartKeepsOpen(s: State, c: Checker, d: int, i: int, b: Block, enabled: bool, allowError: bool)
    requires d in c.open && 0 <= d < s.next && b.kind.Some? && !ShouldDrop(b.kind, enabled)
    requires forall k :: k != i ==> NotOwner(s, d, k)
    ensures var (t, out) := StepStart(s, Start(Some(i), Some(b)), i, b, enabled);
            && StaysOpen(Check(c, out, allowError), d)
            && 0 <= d < t.next && forall k :: NotOwner(t, d, k)
  {
    var (s1, prefix) := CloseOthers(s, s.order, i);
    CloseOthersKeeps(s, s.order, i);
    CloseOthersKeepsOpen(s, c, d, s.order, i, allowError);
    CloseOthersNotOwner(s, d, s.order, i);
    var start := Start(Some(s1.next), Some(b));
    CheckAppend(c, prefix, [start], allowError);
    assert [start][1..] == [];
    var t := Allocate(s1, i, b.kind.value, Some(b));
    forall k
      ensures NotOwner(t, d, k)
    {
      assert k != i ==> NotOwner(s1, d, k);
    }
  }

  lemma StepKeepsOrphan(s: State, w: Used, c: Checker, d: int, e: Event, enabled: bool, allowError: bool)
    requires Orphan(s, c, d) && Knows(s, w) && !Strays(w, e, enabled)
    ensures var r := Check(c, Step(s, e, enabled).1, allowError);
            r.Some? ==> Orphan(Step(s, e, enabled).0, r.value, d)
  {
    var (t, out) := Step(s, e, enabled);
    match e
    case Start(Some(i), Some(b)) =>
      if !ShouldDrop(b.kind, enabled) && b.kind.Some? {
        StartKeepsOpen(s, c, d, i, b, enabled, allowError);
      } else {
        OrphanElsewhere(s, t, d);
      }
    case DeltaEvent(Some(i), Some(_)) =>
      DeltaOutputs(c, out, d, allowError);
      OrphanElsewhere(s, t, d);
    case Stop(Some(i)) =>
      assert NotOwner(s, d, i);
      if out != [] {
        assert out == [out[0]];
        CheckOne(c, out[0], allowError);
      }
      OrphanElsewhere(s, t, d);
    case _ =>
      CheckOne(c, e, allowError);
  }

  lemma OrphanElsewhere(s: State, t: State, d: int)
    requires 0 <= d < s.next && forall i :: NotOwner(s, d, i)
    requires forall i :: i in t.segs && t.segs[i].open ==>
                           t.segs[i].down == s.next || (i in s.segs && s.segs[i].open && s.segs[i].down == t.segs[i].down)
    ensures forall i :: NotOwner(t, d, i)
  {
    forall i
      ensures NotOwner(t, d, i)
    {
      assert NotOwner(s, d, i);
    }
  }

  lemma {:induction false} DeltaOutputs(c: Checker, out: seq<Event>, d: int, allowError: bool)
    requires d in c.open
    requires forall e :: e in out ==> !e.Stop?
    ensures StaysOpen(Check(c, out, allowError), d)
    decreases |out|
  {
    if out != [] {
      assert out[0] in out;
      var r := CheckEvent(c, out[0], allowError);
      if r.Some? {
        assert forall e :: e in out[1..] ==> e in out;
        DeltaOutputs(r.value, out[1..], d, allowError);
      }
    }
  }

  /** The checker has rejected the stream, or a block is lost. */
  ghost predicate Doomed(s: State, r: Option<Checker>) {
    r.Some? ==> exists d :: Orphan(s, r.value, d)
  }

  /** A lost block is never closed. */
  lemma {:induction false} DoomedFails(s: State, w: Used, c: Checker, events: seq<Event>, enabled: bool, allowError: bool)
    requires Doomed(s, Some(c)) && Knows(s, w) && NoStrays(w, events, enabled)
    ensures var r := Check(c, Repair(s, events, enabled).1, allowError);
            r.Some? ==> r.value.open != map[]
    decreases |events|
  {
    var d :| Orphan(s, c, d);
    if events != [] {
      var s1, out1, out2 := RepairCons(s, events, enabled);
      StepKeepsOrphan(s, w, c, d, events[0], enabled, allowError);
      StepKnows(s, w, events[0], enabled);
      CheckAppend(c, out1, out2, allowError);
      var r := Check(c, out1, allowError);
      if r.Some? {
        DoomedFails(s1, UsedAfter(w, events[0], enabled), r.value, events[1..], enabled, allowError);
      }
    }
  }

  // ---------------------------------------------------------------- what breaks the discipline

  lemma RestartIsDoomed(s: State, u: Upstream, c: Checker, log: seq<int>, i: int, b: Block, enabled: bool, allowError: bool)
    requires J(s, u, c, log) && IsLive(u.phases, i) && b.kind.Some? && !ShouldDrop(b.kind, enabled)
    ensures var (t, out) := StepStart(s, Start(Some(i), Some(b)), i, b, enabled);
            Doomed(t, Check(c, out, allowError))
  {
    assert At(s, u.phases, c, i) && Logged(s, log, i);
    var d := s.segs[i].down;
    forall k | k != i
      ensures NotOwner(s, d, k)
    {
      assert Logged(s, log, k);
    }
    StartKeepsOpen(s, c, d, i, b, enabled, allowError);
    var (t, out) := StepStart(s, Start(Some(i), Some(b)), i, b, enabled);
    var r := Check(c, out, allowError);
    assert r.Some? ==> Orphan(t, r.value, d);
  }

  lemma BadStartIsDoomed(s: State, u: Upstream, c: Checker, log: seq<int>, i: int, b: Block, enabled: bool, allowError: bool)
    requires J(s, u, c, log) && !ShouldDrop(b.kind, enabled)
    requires b.kind.None? || b.kind.value !in ALLOWED_KINDS
    ensures Check(c, StepStart(s, Start(Some(i), Some(b)), i, b, enabled).1, allowError) == None
  {
    if b.kind.None? {
      CheckOne(c, Start(Some(i), Some(b)), allowError);
    } else {
      var (s1, prefix) := CloseOthers(s, s.order, i);
      var c1 := StartRests(s, u, c, log, i, allowError);
      CheckAppend(c, prefix, [Start(Some(s1.next), Some(b))], allowError);
      CheckOne(c1, Start(Some(s1.next), Some(b)), allowError);
    }
  }

  lemma BadDeltaIsDoomed(s: State, u: Upstream, w: Used, c: Checker, log: seq<int>, e: Event, enabled: bool, allowError: bool)
    requires J(s, u, c, log) && Knows(s, w) && e.DeltaEvent?
    requires Follow(u, e, enabled, allowError) == None && !Strays(w, e, enabled)
    ensures Check(c, Step(s, e, enabled).1, allowError) == None
  {
    var out := Step(s, e, enabled).1;
    if e.index.Some? && e.delta.Some? {
      assert At(s, u.phases, c, e.index.value);
    }
    assert out == [out[0]];
    CheckOne(c, out[0], allowError);
  }

  /** The first event that breaks the discipline dooms the stream. */
  lemma RejectedIsDoomed(s: State, u: Upstream, w: Used, c: Checker, log: seq<int>, e: Event, enabled: bool, allowError: bool)
    requires J(s, u, c, log) && Knows(s, w)
    requires Follow(u, e, enabled, allowError) == None && !Strays(w, e, enabled)
    ensures Doomed(Step(s, e, enabled).0, Check(c, Step(s, e, enabled).1, allowError))
  {
    if !e.Other? && e.index.Some? {
      assert At(s, u.phases, c, e.index.value);
    }
    match e
    case Start(Some(i), Some(b)) =>
      if b.kind.Some? && b.kind.value in ALLOWED_KINDS {
        RestartIsDoomed(s, u, c, log, i, b, enabled, allowError);
      } else {
        BadStartIsDoomed(s, u, c, log, i, b, enabled, allowError);
      }
    case DeltaEvent(_, _) => BadDeltaIsDoomed(s, u, w, c, log, e, enabled, allowError);
    case Stop(Some(_)) =>
    case _ => CheckOne(c, e, allowError);
  }

  lemma {:induction false} RejectedStreamFails(s: State, u: Upstream, w: Used, c: Checker, log: seq<int>,
                                               events: seq<Event>, enabled: bool, allowError: bool)
    requires J(s, u, c, log) && Knows(s, w) && NoStrays(w, events, enabled)
    requires FollowAll(u, events, enabled, allowError) == None
    ensures var r := Check(c, Repair(s, events, enabled).1, allowError);
            r.Some? ==> r.value.open != map[]
    decreases |events|
  {
    var e := events[0];
    var s1, out1, out2 := RepairCons(s, events, enabled);
    var w1 := UsedAfter(w, e, enabled);
    CheckAppend(c, out1, out2, allowError);
    StepKnows(s, w, e, enabled);
    match Follow(u, e, enabled, allowError) {
      case None =>
        RejectedIsDoomed(s, u, w, c, log, e, enabled, allowError);
        if Check(c, out1, allowError).Some? {
          DoomedFails(s1, w1, Check(c, out1, allowError).value, events[1..], enabled, allowError);
        }
      case Some(u1) =>
        var c1 := StepKeepsJ(s, u, c, log, e, enabled, allowError);
        RejectedStreamFails(s1, u1, w1, c1, log + OpenedBy(s, e, enabled), events[1..], enabled, allowError);
    }
  }

  // ---------------------------------------------------------------- the contract, exactly

  /** Events that belong to no block reach the client, and no others of that kind do. */
  lemma {:induction false} OthersPass(s: State, events: seq<Event>, enabled: bool, e: Event)
    requires e.Other?
    ensures e in Repair(s, events, enabled).1 <==> e in events
    decreases |events|
  {
    if events != [] {
      var s1, out1, out2 := RepairCons(s, events, enabled);
      OthersPass(s1, events[1..], enabled, e);
      assert events == [events[0]] + events[1..];
      OtherOfStep(s, events[0], enabled, e);
    }
  }

  lemma OtherOfStep(s: State, first: Event, enabled: bool, e: Event)
    requires e.Other?
    ensures e in Step(s, first, enabled).1 <==> e == first
  {
    if first.Start? && first.index.Some? {
      CloseOthersStops(s, s.order, first.index.value);
    }
  }

  /** An event that belongs to no block stays last. */
  lemma {:induction false} LastPasses(s: State, events: seq<Event>, enabled: bool)
    requires events != [] && events[|events| - 1].Other?
    ensures var out := Repair(s, events, enabled).1;
            out != [] && out[|out| - 1] == events[|events| - 1]
    decreases |events|
  {
    var s1, out1, out2 := RepairCons(s, events, enabled);
    if |events| == 1 {
      assert events[1..] == [];
      assert out1 + [] == out1;
    } else {
      LastPasses(s1, events[1..], enabled);
    }
  }

  lemma NamedEventPasses(events: seq<Event>, enabled: bool, name: string)
    requires name == "message_start" || name == "message_stop"
    ensures HasEvent(Repair(INIT, events, enabled).1, name) <==> HasEvent(events, name)
  {
    var out := Repair(INIT, events, enabled).1;
    if x :| x in out && EventName(x) == name {
      OthersPass(INIT, events, enabled, x);
    }
    if x :| x in events && EventName(x) == name {
      OthersPass(INIT, events, enabled, x);
    }
  }

  /** The event reaches the client in no form. */
  predicate Swallowed(u: Upstream, e: Event, enabled: bool) {
    match e
    case Start(Some(i), Some(b)) => ShouldDrop(b.kind, enabled)
    case DeltaEvent(Some(i), Some(d)) => i in u.dropped || ShouldDrop(d.kind, enabled)
    case Stop(Some(i)) =>
      i in u.dropped || (if i in u.phases then u.phases[i].stale || u.phases[i].Resting? else !enabled)
    case _ => false
  }

  /** The last event that is not swallowed ends the message; `ended` speaks for the past. */
  predicate EndsMessage(u: Upstream, events: seq<Event>, ended: bool, enabled: bool, allowError: bool)
    decreases |events|
  {
    if events == [] then ended
    else
      match Follow(u, events[0], enabled, allowError)
      case None => false
      case Some(u1) =>
        EndsMessage(u1, events[1..],
                    if Swallowed(u, events[0], enabled) then ended else EventName(events[0]) == "message_stop",
                    enabled, allowError)
  }

  predicate LastIs(out: seq<Event>, name: string, ended: bool) {
    if out == [] then ended else EventName(out[|out| - 1]) == name
  }

  lemma StepEnds(s: State, u: Upstream, c: Checker, log: seq<int>, e: Event, ended: bool, enabled: bool, allowError: bool)
    requires J(s, u, c, log) && Follow(u, e, enabled, allowError).Some?
    ensures LastIs(Step(s, e, enabled).1, "message_stop", ended)
            == if Swallowed(u, e, enabled) then ended else EventName(e) == "message_stop"
  {
    if !e.Other? && e.index.Some? {
      assert At(s, u.phases, c, e.index.value);
    }
  }

  lemma {:induction false} RunEnds(s: State, u: Upstream, c: Checker, log: seq<int>, events: seq<Event>, ended: bool,
                                   enabled: bool, allowError: bool)
    requires J(s, u, c, log) && FollowAll(u, events, enabled, allowError).Some?
    ensures LastIs(Repair(s, events, enabled).1, "message_stop", ended)
            == EndsMessage(u, events, ended, enabled, allowError)
    decreases |events|
  {
    if events != [] {
      var e := events[0];
      var s1, out1, out2 := RepairCons(s, events, enabled);
      var c1 := StepKeepsJ(s, u, c, log, e, enabled, allowError);
      StepEnds(s, u, c, log, e, ended, enabled, allowError);
      RunEnds(s1, Follow(u, e, enabled, allowError).value, c1, log + OpenedBy(s, e, enabled), events[1..],
              LastIs(out1, "message_stop", ended), enabled, allowError);
    }
  }

  /** The condition on the upstream events: no event breaks the discipline, the message is begun
      and ended, no index is left live, and some index was used and not dropped. */
  ghost predicate Disciplined(events: seq<Event>, enabled: bool, allowError: bool) {
    && HasEvent(events, "message_start") && EndsMessage(UNUSED, events, false, enabled, allowError)
    && match FollowAll(UNUSED, events, enabled, allowError)
       case None => false
       case Some(u) => NoneLive(u.phases) && u.phases != map[]
  }

  /** The main theorem. For every upstream stream without stray events, the repaired stream meets
      the whole contract if and only if upstream is disciplined. */
  lemma RepairedStreamMeetsContract(events: seq<Event>, enabled: bool, allowError: bool)
    requires NoStrays(NONE, events, enabled)
    ensures Contract(Repair(INIT, events, enabled).1, allowError) <==> Disciplined(events, enabled, allowError)
  {
    InitHasJ();
    NamedEventPasses(events, enabled, "message_start");
    match FollowAll(UNUSED, events, enabled, allowError)
    case None => RejectedStreamFails(INIT, UNUSED, NONE, FRESH, [], events, enabled, allowError);
    case Some(u) =>
      RunEnds(INIT, UNUSED, FRESH, [], events, false, enabled, allowError);
      var c := RepairKeepsJ(INIT, UNUSED, FRESH, [], events, enabled, allowError);
      var t, log := Repair(INIT, events, enabled).0, [] + Log(INIT, events, enabled);
      NothingOpen(t, u, c, log);
      AnyBlock(t, u, c, log);
  }

  /** A stream that ends with an event of the message itself ends as that event says. */
  lemma EndsWithLast(events: seq<Event>, enabled: bool, allowError: bool)
    requires events != [] && events[|events| - 1].Other? && FollowAll(UNUSED, events, enabled, allowError).Some?
    ensures EndsMessage(UNUSED, events, false, enabled, allowError)
            <==> EventName(events[|events| - 1]) == "message_stop"
  {
    InitHasJ();
    LastPasses(INIT, events, enabled);
    RunEnds(INIT, UNUSED, FRESH, [], events, false, enabled, allowError);
  }

  lemma {:induction false} FollowAppend(u: Upstream, a: seq<Event>, b: seq<Event>, enabled: bool, allowError: bool)
    ensures FollowAll(u, a + b, enabled, allowError)
            == match FollowAll(u, a, enabled, allowError)
               case None => None
               case Some(u') => FollowAll(u', b, enabled, allowError)
    decreases |a|
  {
    if a == [] {
      assert a + b == b;
    } else {
      assert (a + b)[1..] == a[1..] + b;
      match Follow(u, a[0], enabled, allowError)
      case None =>
      case Some(u') => FollowAppend(u', a[1..], b, enabled, allowError);
    }
  }

  /** Starting a live index is fatal whatever follows: its block is never closed. */
  lemma RestartIsFatal(before: seq<Event>, i: int, b: Block, after: seq<Event>, enabled: bool, allowError: bool)
    requires FollowAll(UNUSED, before, enabled, allowError).Some?
    requires IsLive(FollowAll(UNUSED, before, enabled, allowError).value.phases, i)
    requires NoStrays(NONE, before + ([Start(Some(i), Some(b))] + after), enabled) && !ShouldDrop(b.kind, enabled)
    ensures !Contract(Repair(INIT, before + ([Start(Some(i), Some(b))] + after), enabled).1, allowError)
  {
    var rest := [Start(Some(i), Some(b))] + after;
    InitHasJ();
    FollowAppend(UNUSED, before, rest, enabled, allowError);
    RejectedStreamFails(INIT, UNUSED, NONE, FRESH, [], before + rest, enabled, allowError);
  }

  // ---------------------------------------------------------------- a stop that comes late

  ghost predicate SameUse(u: Upstream, w: Used) {
    u.phases.Keys == w.blocks && u.dropped == w.dropped
  }

  /** A disciplined stream has no stray events. */
  lemma {:induction false} DisciplineExcludesStrays(u: Upstream, w: Used, events: seq<Event>, enabled: bool, allowError: bool)
    requires SameUse(u, w) && FollowAll(u, events, enabled, allowError).Some?
    ensures NoStrays(w, events, enabled)
    decreases |events|
  {
    if events != [] {
      var u1 := Follow(u, events[0], enabled, allowError).value;
      assert SameUse(u1, UsedAfter(w, events[0], enabled));
      DisciplineExcludesStrays(u1, UsedAfter(w, events[0], enabled), events[1..], enabled, allowError);
    }
  }

  const END := Other("message_stop", "")

  /** A block that is started again after it was closed early: the state behind its start. */
  function Restarted(u: Upstream, i: int, b: Block, stale: bool): Upstream
    requires b.kind.Some?
  {
    u.(phases := Rested(u.phases, i)[i := Live(Storage(b.kind.value, b.text), stale)])
  }

  predicate Startable(u: Upstream, i: int, b: Block, enabled: bool) {
    b.kind.Some? && b.kind.value in ALLOWED_KINDS && !ShouldDrop(b.kind, enabled) && i !in u.dropped
  }

  lemma RestartThenStops(u: Upstream, i: int, b: Block, enabled: bool, allowError: bool)
    requires i in u.phases && u.phases[i] == Resting(true) && Startable(u, i, b, enabled)
    ensures var start, stop := Start(Some(i), Some(b)), Stop(Some(i));
            && FollowAll(u, [start, stop, END], enabled, allowError) == Some(Restarted(u, i, b, false))
            && FollowAll(u, [start, stop, stop, END], enabled, allowError)
               == Some(u.(phases := Rested(u.phases, i)[i := Resting(false)]))
  {
    var start, stop := Start(Some(i), Some(b)), Stop(Some(i));
    var u1, u2 := Restarted(u, i, b, true), Restarted(u, i, b, false);
    var u3 := u.(phases := Rested(u.phases, i)[i := Resting(false)]);
    assert Follow(u, start, enabled, allowError) == Some(u1);
    assert u1.phases[i := Live(Storage(b.kind.value, b.text), false)] == u2.phases;
    assert Follow(u1, stop, enabled, allowError) == Some(u2);
    assert u2.phases[i := Resting(false)] == u3.phases;
    assert Follow(u2, stop, enabled, allowError) == Some(u3);
    FollowTwo(u, start, stop, [END], u1, u2, enabled, allowError);
    FollowTwo(u, start, stop, [stop, END], u1, u2, enabled, allowError);
    FollowTwo(u2, stop, END, [], u3, u3, enabled, allowError);
    assert [stop, END] == [stop, END] + [];
    assert [END][1..] == [];
    assert [start, stop, END] == [start, stop] + [END];
    assert [start, stop, stop, END] == [start, stop] + [stop, END];
  }

  lemma FollowTwo(u: Upstream, a: Event, b: Event, rest: seq<Event>, u1: Upstream, u2: Upstream, enabled: bool, allowError: bool)
    requires Follow(u, a, enabled, allowError) == Some(u1) && Follow(u1, b, enabled, allowError) == Some(u2)
    ensures FollowAll(u, [a, b] + rest, enabled, allowError) == FollowAll(u2, rest, enabled, allowError)
  {
    var events := [a, b] + rest;
    assert events[1..] == [b] + rest && events[1..][1..] == rest;
  }

  /** A block that was closed early and is started again takes two stops: the first one is
      swallowed, since it still counts for the block that was closed. */
  lemma RestartTakesTwoStops(before: seq<Event>, i: int, b: Block, enabled: bool, allowError: bool)
    requires HasEvent(before, "message_start") && FollowAll(UNUSED, before, enabled, allowError).Some?
    requires var u := FollowAll(UNUSED, before, enabled, allowError).value;
             i in u.phases && u.phases[i] == Resting(true) && Startable(u, i, b, enabled)
    ensures var start, stop := Start(Some(i), Some(b)), Stop(Some(i));
            && !Contract(Repair(INIT, before + [start, stop, END], enabled).1, allowError)
            && Contract(Repair(INIT, before + [start, stop, stop, END], enabled).1, allowError)
  {
    var u := FollowAll(UNUSED, before, enabled, allowError).value;
    var start, stop := Start(Some(i), Some(b)), Stop(Some(i));
    RestartThenStops(u, i, b, enabled, allowError);
    EndsExactly(before, [start, stop, END], u, enabled, allowError);
    EndsExactly(before, [start, stop, stop, END], u, enabled, allowError);
    var one, two := Restarted(u, i, b, false), u.(phases := Rested(u.phases, i)[i := Resting(false)]);
    assert IsLive(one.phases, i) && one.phases[i].Live?;
    assert two.phases[i] == Resting(false);
  }

  lemma EndsExactly(before: seq<Event>, more: seq<Event>, u: Upstream, enabled: bool, allowError: bool)
    requires HasEvent(before, "message_start") && FollowAll(UNUSED, before, enabled, allowError) == Some(u)
    requires more != [] && more[|more| - 1] == END && FollowAll(u, more, enabled, allowError).Some?
    ensures var v := FollowAll(u, more, enabled, allowError).value;
            Contract(Repair(INIT, before + more, enabled).1, allowError) <==> NoneLive(v.phases) && v.phases != map[]
  {
    var all := before + more;
    FollowAppend(UNUSED, before, more, enabled, allowError);
    DisciplineExcludesStrays(UNUSED, NONE, all, enabled, allowError);
    var x :| x in before && EventName(x) == "message_start";
    assert x in all;
    assert all[|all| - 1] == END;
    EndsWithLast(all, enabled, allowError);
    RepairedStreamMeetsContract(all, enabled, allowError);
  }

  // ---------------------------------------------------------------- stray events

  function TextStart(i: int): Event {
    Start(Some(i), Some(Block(Some("text"), "", None, None, None)))
  }

  /** Why stray events are left out: the stop for an index that was never used closes the block
      of another one, so this stream meets the contract although its only block is not stopped. */
  lemma StrayStopClosesAnotherBlock()
    ensures var events := [Other("message_start", ""), TextStart(5), Stop(Some(0)), END];
            !NoStrays(NONE, events, true) && Contract(Repair(INIT, events, true).1, false)
  {
    var begin, start, stop := Other("message_start", ""), TextStart(5), Stop(Some(0));
    var events := [begin, start, stop, END];
    assert Strays(UsedAfter(NONE, start, true), stop, true);
    assert events[1..] == [start, stop, END] && [start, stop, END][1..] == [stop, END] && [stop, END][1..] == [END];
    assert !NoStrays(NONE, [start, stop, END], true);
    var b := start.block.value;
    var s1 := Allocate(INIT, 5, "text", Some(b));
    var started := Start(Some(0), Some(b));
    assert Step(INIT, start, true).0 == s1 && Step(INIT, start, true).1 == [started];
    assert Step(s1, stop, true).0 == s1 && Step(s1, stop, true).1 == [stop];
    assert [END][1..] == [];
    assert Repair(s1, [END], true).1 == [END];
    assert Repair(s1, [stop, END], true).1 == [stop, END];
    assert Repair(INIT, [start, stop, END], true).1 == [started, stop, END];
    var out := [begin, started, stop, END];
    assert Repair(INIT, events, true).1 == out;
    var c1, c2 := Checker(map[0 := Storage("text", "")], {0}), Checker(map[], {0});
    assert out[1..] == [started, stop, END] && [started, stop, END][1..] == [stop, END];
    assert FRESH.open[0 := Storage("text", "")] == c1.open && FRESH.seen + {0} == c1.seen;
    assert CheckEvent(FRESH, started, false) == Some(c1);
    assert c1.open - {0} == map[];
    assert CheckEvent(c1, stop, false) == Some(c2);
    assert Check(c2, [END], false) == Some(c2);
    assert Check(FRESH, [started, stop, END], false) == Some(c2);
    assert begin in out;
  }
}
