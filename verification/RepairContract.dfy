/** The upstream discipline of the block repair, seen from the upstream events alone, and the
    invariant that ties it to the policy and to the contract checker: as long as the discipline is
    kept, a downstream block is open exactly if its upstream index is live, a stop is swallowed
    exactly if it is stale, and the checker refuses nothing (core/anthropic/stream_contracts.py,
    core/anthropic/native_sse_block_policy.py). */
module RepairContract {
  import opened Text
  import opened StreamContract
  import opened BlockRepair

  // ---------------------------------------------------------------- what upstream sends

  /** How far an upstream index has come. A live index has an open downstream block; a resting one
      has none, because it was stopped or because another index was started. `stale` says that a
      stop for it is still awaited, which will be swallowed; a new start does not change that. */
  datatype Phase = Live(kind: string, stale: bool) | Resting(stale: bool)
  type Phases = map<int, Phase>

  datatype Upstream = Upstream(phases: Phases, dropped: set<int>)

  const UNUSED := Upstream(map[], {})

  predicate IsLive(phases: Phases, i: int) {
    i in phases && phases[i].Live?
  }

  /** Another index was started: all live ones are put to rest, and their stops are awaited. */
  function Rested(phases: Phases, current: int): Phases {
    map i | i in phases :: if i != current && phases[i].Live? then Resting(true) else phases[i]
  }

  /** One upstream event; no result means that it breaks the discipline. Indices may interleave
      in any way, a resting index may be started again or just be used, stops may be repeated, and
      an index may be dropped at any time. What is not allowed: to start an index that is live, a
      delta of another kind than its block or of no known kind, blocks of an unknown kind, events
      without an index or a block, errors, and what `Strays` says of unused indices. */
  function Follow(u: Upstream, e: Event, enabled: bool, allowError: bool): Option<Upstream> {
    match e
    case Start(Some(i), Some(b)) =>
      if ShouldDrop(b.kind, enabled) then Some(u.(dropped := u.dropped + {i}))
      else if b.kind.None? || b.kind.value !in ALLOWED_KINDS || IsLive(u.phases, i) then None
      else
        var stale := i in u.phases && u.phases[i].stale;
        Some(u.(phases := Rested(u.phases, i)[i := Live(Storage(b.kind.value, b.text), stale)]))
    case DeltaEvent(Some(i), Some(d)) =>
      if i in u.dropped || ShouldDrop(d.kind, enabled) then Some(u)
      else
        (match DeltaBlockKind(d.kind)
         case None => None
         case Some(kind) =>
           if IsLive(u.phases, i) then if u.phases[i].kind == kind then Some(u) else None
           else if i !in u.phases && kind == "thinking" then None
           else Some(u.(phases := u.phases[i := Live(kind, false)])))
    case Stop(Some(i)) =>
      if i in u.dropped then Some(u)
      else if i in u.phases then
        Some(u.(phases := u.phases[i := if u.phases[i].stale then u.phases[i].(stale := false) else Resting(false)]))
      else if enabled then None
      else Some(u)
    case Other(name, _) => if name == "error" && !allowError then None else Some(u)
    case _ => None
  }

  function FollowAll(u: Upstream, events: seq<Event>, enabled: bool, allowError: bool): Option<Upstream>
    decreases |events|
  {
    if events == [] then Some(u)
    else
      match Follow(u, events[0], enabled, allowError)
      case None => None
      case Some(u') => FollowAll(u', events[1..], enabled, allowError)
  }

  // ---------------------------------------------------------------- the invariant

  ghost predicate Holds(c: Checker, d: int, kind: string) {
    d in c.open && c.open[d] == kind
  }

  /** The three views of one upstream index agree: upstream's, the policy's and the checker's. */
  ghost predicate At(s: State, phases: Phases, c: Checker, i: int) {
    if i !in phases then i !in s.segs && i !in s.pending
    else
      && i in s.segs && (i in s.pending <==> phases[i].stale)
      && (s.segs[i].open <==> phases[i].Live?)
      && (phases[i].Live? ==> Holds(c, s.segs[i].down, phases[i].kind))
  }

  /** `log` records for every downstream index the upstream index it was opened for. */
  ghost predicate Logged(s: State, log: seq<int>, i: int) {
    i in s.segs ==> s.segs[i].down < |log| && log[s.segs[i].down] == i
  }

  ghost predicate Owned(s: State, c: Checker, log: seq<int>, d: int) {
    d in c.open ==>
      && 0 <= d < |log|
      && log[d] in s.segs && s.segs[log[d]].open && s.segs[log[d]].down == d
  }

  ghost predicate Seen(c: Checker, next: nat, d: int) {
    d in c.seen <==> 0 <= d < next
  }

  ghost predicate Frame(s: State, c: Checker, log: seq<int>) {
    && |log| == s.next && ValidOrder(s)
    && (forall i :: Logged(s, log, i))
    && (forall d :: Owned(s, c, log, d))
    && (forall d :: Seen(c, s.next, d))
    && (s.segs == map[] ==> s.next == 0)
  }

  ghost predicate J(s: State, u: Upstream, c: Checker, log: seq<int>) {
    Frame(s, c, log) && s.dropped == u.dropped && forall i :: At(s, u.phases, c, i)
  }

  /** Putting one index to rest, as closing its block does. */
  function RestOne(phases: Phases, k: int, current: int): Phases {
    if k != current && IsLive(phases, k) then phases[k := Resting(true)] else phases
  }

  function RestAll(phases: Phases, order: seq<int>, current: int): Phases
    decreases |order|
  {
    if order == [] then phases else RestAll(RestOne(phases, order[0], current), order[1..], current)
  }

  lemma {:induction false} RestAllAt(phases: Phases, order: seq<int>, current: int, i: int)
    ensures i in RestAll(phases, order, current) <==> i in phases
    ensures i in phases ==>
              RestAll(phases, order, current)[i]
              == if i in order && i != current && phases[i].Live? then Resting(true) else phases[i]
    decreases |order|
  {
    if order != [] {
      RestAllAt(RestOne(phases, order[0], current), order[1..], current, i);
    }
  }

  lemma RestAllIsRested(phases: Phases, order: seq<int>, current: int)
    requires forall i :: i in phases ==> i in order
    ensures RestAll(phases, order, current) == Rested(phases, current)
  {
    var a, b := RestAll(phases, order, current), Rested(phases, current);
    forall i
      ensures i in a <==> i in b
      ensures i in b ==> a[i] == b[i]
    {
      RestAllAt(phases, order, current, i);
    }
    assert a.Keys == b.Keys;
  }

  lemma CloseOneKeepsJ(s: State, u: Upstream, c: Checker, log: seq<int>, k: int, current: int, allowError: bool)
    returns (c': Checker)
    requires J(s, u, c, log)
    ensures Check(c, CloseOne(s, k, current).1, allowError) == Some(c')
    ensures J(CloseOne(s, k, current).0, u.(phases := RestOne(u.phases, k, current)), c', log)
  {
    c' := c;
    var (t, out) := CloseOne(s, k, current);
    var phases := RestOne(u.phases, k, current);
    assert At(s, u.phases, c, k);
    if k != current && k in s.segs && s.segs[k].open {
      var d := s.segs[k].down;
      assert Logged(s, log, k);
      c' := Checker(c.open - {d}, c.seen);
      assert CheckEvent(c, out[0], allowError) == Some(c') && out[1..] == [];
      forall i
        ensures At(t, phases, c', i) && Logged(t, log, i)
      {
        assert At(s, u.phases, c, i) && Logged(s, log, i);
      }
      forall x
        ensures Owned(t, c', log, x) && Seen(c', t.next, x)
      {
        assert Owned(s, c, log, x) && Seen(c, s.next, x);
      }
      assert t.segs[k] == s.segs[k].(open := false);
    }
  }

  lemma {:induction false} CloseOthersKeepsJ(s: State, u: Upstream, c: Checker, log: seq<int>,
                                             order: seq<int>, current: int, allowError: bool)
    returns (c': Checker)
    requires J(s, u, c, log)
    ensures Check(c, CloseOthers(s, order, current).1, allowError) == Some(c')
    ensures J(CloseOthers(s, order, current).0, u.(phases := RestAll(u.phases, order, current)), c', log)
    decreases |order|
  {
    if order == [] {
      c' := c;
    } else {
      var (s1, out1) := CloseOne(s, order[0], current);
      var u1 := u.(phases := RestOne(u.phases, order[0], current));
      var c1 := CloseOneKeepsJ(s, u, c, log, order[0], current, allowError);
      c' := CloseOthersKeepsJ(s1, u1, c1, log, order[1..], current, allowError);
      CheckAppend(c, out1, CloseOthers(s1, order[1..], current).1, allowError);
    }
  }

  /** Closing all others, in terms of the upstream phases. */
  lemma StartRests(s: State, u: Upstream, c: Checker, log: seq<int>, i: int, allowError: bool)
    returns (c': Checker)
    requires J(s, u, c, log)
    ensures Check(c, CloseOthers(s, s.order, i).1, allowError) == Some(c')
    ensures J(CloseOthers(s, s.order, i).0, u.(phases := Rested(u.phases, i)), c', log)
  {
    c' := CloseOthersKeepsJ(s, u, c, log, s.order, i, allowError);
    forall k | k in u.phases
      ensures k in s.order
    {
      assert At(s, u.phases, c, k);
    }
    RestAllIsRested(u.phases, s.order, i);
  }

  /** Opening a downstream block for an index that has none open; the views may disagree on that
      index before, except on its stop. */
  lemma AllocateKeepsJ(s: State, u: Upstream, c: Checker, log: seq<int>, i: int, blockType: string,
                       lastStart: Option<Block>, b: Block, allowError: bool)
    returns (c': Checker)
    requires Frame(s, c, log) && s.dropped == u.dropped && forall k :: k != i ==> At(s, u.phases, c, k)
    requires i in s.segs ==> !s.segs[i].open
    requires b.kind.Some? && b.kind.value in ALLOWED_KINDS
    ensures CheckEvent(c, Start(Some(s.next), Some(b)), allowError) == Some(c')
    ensures J(Allocate(s, i, blockType, lastStart),
              u.(phases := u.phases[i := Live(Storage(b.kind.value, b.text), i in s.pending)]), c', log + [i])
  {
    var kind := Storage(b.kind.value, b.text);
    var t, log' := Allocate(s, i, blockType, lastStart), log + [i];
    var phases := u.phases[i := Live(kind, i in s.pending)];
    assert Owned(s, c, log, s.next) && Seen(c, s.next, s.next);
    c' := Checker(c.open[s.next := kind], c.seen + {s.next});
    forall k
      ensures At(t, phases, c', k) && Logged(t, log', k)
    {
      assert k != i ==> At(s, u.phases, c, k);
      assert Logged(s, log, k);
    }
    forall d
      ensures Owned(t, c', log', d) && Seen(c', t.next, d)
    {
      assert Owned(s, c, log, d) && Seen(c, s.next, d);
    }
    assert i in t.segs;
  }

  /** The downstream blocks one event opens, by upstream index. */
  function OpenedBy(s: State, e: Event, enabled: bool): seq<int> {
    if !e.Other? && Step(s, e, enabled).0.next > s.next && e.index.Some? then [e.index.value] else []
  }

  lemma DropKeepsJ(s: State, u: Upstream, c: Checker, log: seq<int>, i: int)
    requires J(s, u, c, log)
    ensures J(s.(dropped := s.dropped + {i}), u.(dropped := u.dropped + {i}), c, log)
  {
    var t := s.(dropped := s.dropped + {i});
    forall k
      ensures At(t, u.phases, c, k) && Logged(t, log, k)
    {
      assert At(s, u.phases, c, k) && Logged(s, log, k);
    }
    forall d
      ensures Owned(t, c, log, d) && Seen(c, t.next, d)
    {
      assert Owned(s, c, log, d) && Seen(c, s.next, d);
    }
  }

  lemma StartKeepsJ(s: State, u: Upstream, c: Checker, log: seq<int>, e: Event, enabled: bool, allowError: bool)
    returns (c': Checker)
    requires J(s, u, c, log) && e.Start? && Follow(u, e, enabled, allowError).Some?
    ensures Check(c, Step(s, e, enabled).1, allowError) == Some(c')
    ensures J(Step(s, e, enabled).0, Follow(u, e, enabled, allowError).value, c', log + OpenedBy(s, e, enabled))
  {
    var i, b := e.index.value, e.block.value;
    assert e == Start(Some(i), Some(b));
    if ShouldDrop(b.kind, enabled) {
      c' := c;
      DropKeepsJ(s, u, c, log, i);
      assert log + [] == log;
    } else {
      var (s1, prefix) := CloseOthers(s, s.order, i);
      var c1 := StartRests(s, u, c, log, i, allowError);
      var u1 := u.(phases := Rested(u.phases, i));
      assert At(s1, u1.phases, c1, i);
      c' := AllocateKeepsJ(s1, u1, c1, log, i, b.kind.value, Some(b), b, allowError);
      CloseOthersKeeps(s, s.order, i);
      CheckAppend(c, prefix, [Start(Some(s1.next), Some(b))], allowError);
      CheckOne(c1, Start(Some(s1.next), Some(b)), allowError);
    }
  }

  lemma OpenForDeltaKeepsJ(s: State, u: Upstream, c: Checker, log: seq<int>, i: int, d: Delta, kind: string,
                           block: Block, lastStart: Option<Block>, allowError: bool)
    returns (c': Checker)
    requires Frame(s, c, log) && s.dropped == u.dropped && forall k :: k != i ==> At(s, u.phases, c, k)
    requires i !in s.pending && (i in s.segs ==> !s.segs[i].open)
    requires DeltaBlockKind(d.kind) == Some(kind)
    requires block.kind == Some(kind) && block.text == ""
    ensures Check(c, OpenForDelta(s, i, d, kind, block, lastStart).1, allowError) == Some(c')
    ensures J(OpenForDelta(s, i, d, kind, block, lastStart).0, u.(phases := u.phases[i := Live(kind, false)]), c', log + [i])
  {
    assert Storage(kind, "") == kind;
    c' := AllocateKeepsJ(s, u, c, log, i, kind, lastStart, block, allowError);
    var out := OpenForDelta(s, i, d, kind, block, lastStart).1;
    assert out[1..][0] == DeltaEvent(Some(s.next), Some(d)) && out[1..][1..] == [];
    assert At(Allocate(s, i, kind, lastStart), u.phases[i := Live(kind, false)], c', i);
    assert Check(c', out[1..], allowError) == Some(c');
  }

  lemma FrameWithPending(s: State, c: Checker, log: seq<int>, t: State)
    requires Frame(s, c, log) && t == s.(pending := t.pending)
    ensures Frame(t, c, log)
  {
    forall i
      ensures Logged(t, log, i)
    {
      assert Logged(s, log, i);
    }
    forall d
      ensures Owned(t, c, log, d)
    {
      assert Owned(s, c, log, d);
    }
  }

  lemma ReopenKeepsJ(s: State, u: Upstream, c: Checker, log: seq<int>, i: int, d: Delta, kind: string, allowError: bool)
    returns (c': Checker)
    requires J(s, u, c, log) && i in s.segs && !s.segs[i].open && DeltaBlockKind(d.kind) == Some(kind)
    ensures var block := SyntheticStart(kind, i, StoredTool(s.segs[i].lastStart));
            var (t, out) := OpenForDelta(s.(pending := s.pending - {i}), i, d, kind, block, s.segs[i].lastStart);
            && Check(c, out, allowError) == Some(c')
            && J(t, u.(phases := u.phases[i := Live(kind, false)]), c', log + [i])
  {
    var t := s.(pending := s.pending - {i});
    var carry := s.segs[i].lastStart;
    FrameWithPending(s, c, log, t);
    forall k | k != i
      ensures At(t, u.phases, c, k)
    {
      assert At(s, u.phases, c, k);
    }
    c' := OpenForDeltaKeepsJ(t, u, c, log, i, d, kind, SyntheticStart(kind, i, StoredTool(carry)), carry, allowError);
  }

  lemma DeltaKeepsJ(s: State, u: Upstream, c: Checker, log: seq<int>, e: Event, enabled: bool, allowError: bool)
    returns (c': Checker)
    requires J(s, u, c, log) && e.DeltaEvent? && Follow(u, e, enabled, allowError).Some?
    ensures Check(c, Step(s, e, enabled).1, allowError) == Some(c')
    ensures J(Step(s, e, enabled).0, Follow(u, e, enabled, allowError).value, c', log + OpenedBy(s, e, enabled))
  {
    var i, d := e.index.value, e.delta.value;
    assert At(s, u.phases, c, i);
    assert log + [] == log;
    c' := c;
    if i !in s.dropped && !ShouldDrop(d.kind, enabled) {
      var kind := DeltaBlockKind(d.kind).value;
      if IsLive(u.phases, i) {
        CheckOne(c, DeltaEvent(Some(s.segs[i].down), Some(d)), allowError);
      } else if i in s.segs {
        c' := ReopenKeepsJ(s, u, c, log, i, d, kind, allowError);
      } else {
        var block := SyntheticStart(kind, i, None);
        c' := OpenForDeltaKeepsJ(s, u, c, log, i, d, kind, block, Some(block), allowError);
      }
    }
  }

  lemma StopKeepsJ(s: State, u: Upstream, c: Checker, log: seq<int>, e: Event, enabled: bool, allowError: bool)
    returns (c': Checker)
    requires J(s, u, c, log) && e.Stop? && Follow(u, e, enabled, allowError).Some?
    ensures Check(c, Step(s, e, enabled).1, allowError) == Some(c')
    ensures J(Step(s, e, enabled).0, Follow(u, e, enabled, allowError).value, c', log + OpenedBy(s, e, enabled))
  {
    var i := e.index.value;
    var (t, out) := Step(s, e, enabled);
    var u' := Follow(u, e, enabled, allowError).value;
    assert At(s, u.phases, c, i) && Logged(s, log, i);
    assert log + [] == log;
    c' := c;
    if i !in s.dropped && i !in s.pending && i in s.segs && s.segs[i].open {
      c' := Checker(c.open - {s.segs[i].down}, c.seen);
      CheckOne(c, out[0], allowError);
      assert out == [out[0]];
      assert t.segs[i] == s.segs[i].(open := false);
    }
    forall k
      ensures At(t, u'.phases, c', k) && Logged(t, log, k)
    {
      assert At(s, u.phases, c, k) && Logged(s, log, k);
    }
    forall d
      ensures Owned(t, c', log, d) && Seen(c', t.next, d)
    {
      assert Owned(s, c, log, d) && Seen(c, s.next, d);
    }
  }

  lemma StepKeepsJ(s: State, u: Upstream, c: Checker, log: seq<int>, e: Event, enabled: bool, allowError: bool)
    returns (c': Checker)
    requires J(s, u, c, log) && Follow(u, e, enabled, allowError).Some?
    ensures Check(c, Step(s, e, enabled).1, allowError) == Some(c')
    ensures J(Step(s, e, enabled).0, Follow(u, e, enabled, allowError).value, c', log + OpenedBy(s, e, enabled))
  {
    match e
    case Start(_, _) => c' := StartKeepsJ(s, u, c, log, e, enabled, allowError);
    case DeltaEvent(_, _) => c' := DeltaKeepsJ(s, u, c, log, e, enabled, allowError);
    case Stop(_) => c' := StopKeepsJ(s, u, c, log, e, enabled, allowError);
    case Other(_, _) =>
      c' := c;
      assert [e][1..] == [] && log + [] == log;
  }

  /** The downstream blocks a whole stream opens, by upstream index, in downstream order. */
  function Log(s: State, events: seq<Event>, enabled: bool): seq<int>
    decreases |events|
  {
    if events == [] then []
    else OpenedBy(s, events[0], enabled) + Log(Step(s, events[0], enabled).0, events[1..], enabled)
  }

  lemma RepairCons(s: State, events: seq<Event>, enabled: bool)
    returns (s1: State, out1: seq<Event>, out2: seq<Event>)
    requires events != []
    ensures s1 == Step(s, events[0], enabled).0 && out1 == Step(s, events[0], enabled).1
    ensures out2 == Repair(s1, events[1..], enabled).1
    ensures Repair(s, events, enabled).0 == Repair(s1, events[1..], enabled).0
    ensures Repair(s, events, enabled).1 == out1 + out2
  {
    s1, out1 := Step(s, events[0], enabled).0, Step(s, events[0], enabled).1;
    out2 := Repair(s1, events[1..], enabled).1;
  }

  lemma LogCons(s: State, events: seq<Event>, enabled: bool)
    requires events != []
    ensures Log(s, events, enabled)
            == OpenedBy(s, events[0], enabled) + Log(Step(s, events[0], enabled).0, events[1..], enabled)
  {
  }

  lemma {:induction false} RepairKeepsJ(s: State, u: Upstream, c: Checker, log: seq<int>,
                                        events: seq<Event>, enabled: bool, allowError: bool)
    returns (c': Checker)
    requires J(s, u, c, log) && FollowAll(u, events, enabled, allowError).Some?
    ensures Check(c, Repair(s, events, enabled).1, allowError) == Some(c')
    ensures J(Repair(s, events, enabled).0, FollowAll(u, events, enabled, allowError).value, c',
              log + Log(s, events, enabled))
    decreases |events|
  {
    if events == [] {
      c' := c;
      assert log + [] == log;
    } else {
      var u1 := Follow(u, events[0], enabled, allowError).value;
      var c1 := StepKeepsJ(s, u, c, log, events[0], enabled, allowError);
      var s1, out1, out2 := RepairCons(s, events, enabled);
      var now := OpenedBy(s, events[0], enabled);
      c' := RepairKeepsJ(s1, u1, c1, log + now, events[1..], enabled, allowError);
      CheckAppend(c, out1, out2, allowError);
      LogCons(s, events, enabled);
      ConcatAssoc(log, now, Log(s1, events[1..], enabled));
    }
  }

  lemma InitHasJ()
    ensures J(INIT, UNUSED, FRESH, [])
  {
  }

  // ---------------------------------------------------------------- the end of a stream

  predicate NoneLive(phases: Phases) {
    forall i :: i in phases ==> !phases[i].Live?
  }

  /** No downstream block is open if and only if no upstream index is live. */
  lemma NothingOpen(s: State, u: Upstream, c: Checker, log: seq<int>)
    requires J(s, u, c, log)
    ensures c.open == map[] <==> NoneLive(u.phases)
  {
    if NoneLive(u.phases) {
      forall d
        ensures d !in c.open
      {
        assert Owned(s, c, log, d);
        assert At(s, u.phases, c, if 0 <= d < |log| then log[d] else 0);
      }
      assert c.open.Keys == {};
    }
    if i :| i in u.phases && u.phases[i].Live? {
      assert At(s, u.phases, c, i);
    }
  }

  /** The client has seen a block if and only if some index was used and not dropped. */
  lemma AnyBlock(s: State, u: Upstream, c: Checker, log: seq<int>)
    requires J(s, u, c, log)
    ensures c.seen != {} <==> u.phases != map[]
  {
    assert Seen(c, s.next, 0);
    if c.seen != {} {
      var d := SomeMember(c.seen);
      assert Seen(c, s.next, d);
      var i := SomeMember(s.segs.Keys);
      assert At(s, u.phases, c, i);
    }
    if u.phases != map[] {
      var i := SomeMember(u.phases.Keys);
      assert At(s, u.phases, c, i) && Logged(s, log, i);
      assert 0 in c.seen;
    }
  }
}
