/** When exactly at most one downstream block is open at a time: the repair closes the other blocks
    when upstream starts one, but not when a delta opens one again. */
module RepairOverlap {
  import opened Text
  import opened StreamContract
  import opened BlockRepair
  import opened RepairContract
  import opened RepairExact

  /** The open downstream blocks after an event. */
  function OpenAfter(ids: set<int>, e: Event): set<int> {
    match e
    case Start(Some(d), _) => ids + {d}
    case Stop(Some(d)) => ids - {d}
    case _ => ids
  }

  function OpenAfterAll(ids: set<int>, out: seq<Event>): set<int>
    decreases |out|
  {
    if out == [] then ids else OpenAfterAll(OpenAfter(ids, out[0]), out[1..])
  }

  /** At most one block is open, before the stream and after each of its events. */
  predicate OneAtATime(ids: set<int>, out: seq<Event>)
    decreases |out|
  {
    |ids| <= 1 && (out == [] || OneAtATime(OpenAfter(ids, out[0]), out[1..]))
  }

  /** The event is a delta that is not dropped, for an index that is not live, while another one
      is: a delta that is not for the current index although there is one. */
  ghost predicate Crowds(u: Upstream, e: Event, enabled: bool) {
    match e
    case DeltaEvent(Some(i), Some(d)) =>
      i !in u.dropped && !ShouldDrop(d.kind, enabled) && !IsLive(u.phases, i) && !NoneLive(u.phases)
    case _ => false
  }

  ghost predicate NeverCrowds(u: Upstream, events: seq<Event>, enabled: bool, allowError: bool)
    decreases |events|
  {
    events == []
    || (!Crowds(u, events[0], enabled)
        && match Follow(u, events[0], enabled, allowError)
           case None => true
           case Some(u1) => NeverCrowds(u1, events[1..], enabled, allowError))
  }

  lemma {:induction false} OneAppend(ids: set<int>, a: seq<Event>, b: seq<Event>)
    ensures OneAtATime(ids, a + b) <==> OneAtATime(ids, a) && OneAtATime(OpenAfterAll(ids, a), b)
    ensures OpenAfterAll(ids, a + b) == OpenAfterAll(OpenAfterAll(ids, a), b)
    decreases |a|
  {
    if a == [] {
      assert a + b == b;
    } else {
      assert (a + b)[1..] == a[1..] + b;
      OneAppend(OpenAfter(ids, a[0]), a[1..], b);
    }
  }

  lemma OneEvent(ids: set<int>, e: Event)
    ensures OneAtATime(ids, [e]) <==> |ids| <= 1 && |OpenAfter(ids, e)| <= 1
    ensures OpenAfterAll(ids, [e]) == OpenAfter(ids, e)
  {
    assert [e][1..] == [];
  }

  /** The checker's open blocks are the open blocks. */
  lemma {:induction false} CheckerCounts(c: Checker, out: seq<Event>, allowError: bool)
    requires Check(c, out, allowError).Some?
    ensures Check(c, out, allowError).value.open.Keys == OpenAfterAll(c.open.Keys, out)
    decreases |out|
  {
    if out != [] {
      var c1 := CheckEvent(c, out[0], allowError).value;
      assert c1.open.Keys == OpenAfter(c.open.Keys, out[0]);
      CheckerCounts(c1, out[1..], allowError);
    }
  }

  lemma SmallerSet(a: set<int>, d: int)
    ensures |a - {d}| <= |a|
  {
    if d in a {
      assert a == (a - {d}) + {d};
    } else {
      assert a - {d} == a;
    }
  }

  lemma {:induction false} StopsNeverCrowd(ids: set<int>, out: seq<Event>)
    requires |ids| <= 1 && OnlyStops(out)
    ensures OneAtATime(ids, out)
    decreases |out|
  {
    if out != [] {
      assert out[0] in out && forall e :: e in out[1..] ==> e in out;
      if out[0].index.Some? {
        SmallerSet(ids, out[0].index.value);
      }
      StopsNeverCrowd(OpenAfter(ids, out[0]), out[1..]);
    }
  }

  lemma NoneLiveMeansEmpty(s: State, u: Upstream, c: Checker, log: seq<int>)
    requires J(s, u, c, log)
    ensures NoneLive(u.phases) <==> c.open.Keys == {}
    ensures s.next !in c.open
  {
    NothingOpen(s, u, c, log);
    assert c.open == map[] <==> c.open.Keys == {};
    assert Owned(s, c, log, s.next);
  }

  lemma StartNeverCrowds(s: State, u: Upstream, c: Checker, log: seq<int>, e: Event, enabled: bool, allowError: bool)
    requires J(s, u, c, log) && |c.open.Keys| <= 1 && e.Start? && Follow(u, e, enabled, allowError).Some?
    ensures OneAtATime(c.open.Keys, Step(s, e, enabled).1)
  {
    var i, b := e.index.value, e.block.value;
    if !ShouldDrop(b.kind, enabled) {
      var (s1, prefix) := CloseOthers(s, s.order, i);
      var c1 := StartRests(s, u, c, log, i, allowError);
      var u1 := u.(phases := Rested(u.phases, i));
      var start := Start(Some(s1.next), Some(b));
      CloseOthersStops(s, s.order, i);
      StopsNeverCrowd(c.open.Keys, prefix);
      CheckerCounts(c, prefix, allowError);
      assert NoneLive(u1.phases);
      NoneLiveMeansEmpty(s1, u1, c1, log);
      OneAppend(c.open.Keys, prefix, [start]);
      OneEvent({}, start);
      assert OpenAfter({}, start) == {s1.next};
    }
  }

  lemma DeltaCrowdsExactly(s: State, u: Upstream, c: Checker, log: seq<int>, e: Event, enabled: bool, allowError: bool)
    requires J(s, u, c, log) && |c.open.Keys| <= 1 && e.DeltaEvent? && Follow(u, e, enabled, allowError).Some?
    ensures OneAtATime(c.open.Keys, Step(s, e, enabled).1) <==> !Crowds(u, e, enabled)
  {
    var i, d := e.index.value, e.delta.value;
    var out := Step(s, e, enabled).1;
    var ids := c.open.Keys;
    assert At(s, u.phases, c, i);
    if i !in u.dropped && !ShouldDrop(d.kind, enabled) {
      if IsLive(u.phases, i) {
        assert out == [out[0]];
        OneEvent(ids, out[0]);
      } else {
        NoneLiveMeansEmpty(s, u, c, log);
        assert out == [out[0]] + [out[1]];
        OneAppend(ids, [out[0]], [out[1]]);
        OneEvent(ids, out[0]);
        OneEvent(ids + {s.next}, out[1]);
        assert |ids + {s.next}| == |ids| + 1;
      }
    }
  }

  lemma StepCrowdsExactly(s: State, u: Upstream, c: Checker, log: seq<int>, e: Event, enabled: bool, allowError: bool)
    requires J(s, u, c, log) && |c.open.Keys| <= 1 && Follow(u, e, enabled, allowError).Some?
    ensures OneAtATime(c.open.Keys, Step(s, e, enabled).1) <==> !Crowds(u, e, enabled)
  {
    match e
    case Start(_, _) => StartNeverCrowds(s, u, c, log, e, enabled, allowError);
    case DeltaEvent(_, _) => DeltaCrowdsExactly(s, u, c, log, e, enabled, allowError);
    case Stop(_) => StopsNeverCrowd(c.open.Keys, Step(s, e, enabled).1);
    case Other(_, _) => OneEvent(c.open.Keys, e);
  }

  lemma {:induction false} LastIsSmall(ids: set<int>, out: seq<Event>)
    requires OneAtATime(ids, out)
    ensures |OpenAfterAll(ids, out)| <= 1
    decreases |out|
  {
    if out != [] {
      LastIsSmall(OpenAfter(ids, out[0]), out[1..]);
    }
  }

  lemma {:induction false} RunCrowdsExactly(s: State, u: Upstream, c: Checker, log: seq<int>, events: seq<Event>,
                                            enabled: bool, allowError: bool)
    requires J(s, u, c, log) && |c.open.Keys| <= 1 && FollowAll(u, events, enabled, allowError).Some?
    ensures OneAtATime(c.open.Keys, Repair(s, events, enabled).1) <==> NeverCrowds(u, events, enabled, allowError)
    decreases |events|
  {
    if events != [] {
      var e := events[0];
      var s1, out1, out2 := RepairCons(s, events, enabled);
      var c1 := StepKeepsJ(s, u, c, log, e, enabled, allowError);
      StepCrowdsExactly(s, u, c, log, e, enabled, allowError);
      CheckerCounts(c, out1, allowError);
      OneAppend(c.open.Keys, out1, out2);
      if !Crowds(u, e, enabled) {
        LastIsSmall(c.open.Keys, out1);
        RunCrowdsExactly(s1, Follow(u, e, enabled, allowError).value, c1, log + OpenedBy(s, e, enabled),
                         events[1..], enabled, allowError);
      }
    }
  }

  /** For every disciplined stream: at most one downstream block is open after every event if and
      only if every delta that is not dropped is for the live index or comes when none is live. */
  lemma OneBlockAtATimeExactly(events: seq<Event>, enabled: bool, allowError: bool)
    requires FollowAll(UNUSED, events, enabled, allowError).Some?
    ensures OneAtATime({}, Repair(INIT, events, enabled).1) <==> NeverCrowds(UNUSED, events, enabled, allowError)
  {
    InitHasJ();
    assert FRESH.open.Keys == {};
    RunCrowdsExactly(INIT, UNUSED, FRESH, [], events, enabled, allowError);
  }

  lemma {:induction false} CrowdsLater(u: Upstream, before: seq<Event>, more: seq<Event>, enabled: bool, allowError: bool)
    requires FollowAll(u, before, enabled, allowError).Some?
    requires !NeverCrowds(FollowAll(u, before, enabled, allowError).value, more, enabled, allowError)
    ensures !NeverCrowds(u, before + more, enabled, allowError)
    decreases |before|
  {
    if before == [] {
      assert before + more == more;
    } else {
      assert (before + more)[1..] == before[1..] + more;
      CrowdsLater(Follow(u, before[0], enabled, allowError).value, before[1..], more, enabled, allowError);
    }
  }

  /** It does happen that two are open, in a stream that meets the contract: a text block is closed
      early by the start of another one, and gets a delta before that one is stopped. */
  lemma TwoBlocksOpen()
    ensures var delta := DeltaEvent(Some(0), Some(Delta(Some("text_delta"), "")));
            var events := [Other("message_start", ""), TextStart(0), TextStart(1)] + [delta, Stop(Some(1)), Stop(Some(0)), END];
            && Contract(Repair(INIT, events, true).1, false)
            && !OneAtATime({}, Repair(INIT, events, true).1)
  {
    var delta := DeltaEvent(Some(0), Some(Delta(Some("text_delta"), "")));
    var before := [Other("message_start", ""), TextStart(0), TextStart(1)];
    var more := [delta, Stop(Some(1)), Stop(Some(0)), END];
    var u := TwoStarted();
    var v := EndsStopped(u, delta);
    assert Crowds(u, delta, true) by {
      assert u.phases[1].Live?;
    }
    assert before[0] in before;
    EndsExactly(before, more, u, true, false);
    CrowdsLater(UNUSED, before, more, true, false);
    FollowAppend(UNUSED, before, more, true, false);
    OneBlockAtATimeExactly(before + more, true, false);
  }

  lemma TwoStarted() returns (u: Upstream)
    ensures u == Upstream(map[0 := Resting(true), 1 := Live("text", false)], {})
    ensures FollowAll(UNUSED, [Other("message_start", ""), TextStart(0), TextStart(1)], true, false) == Some(u)
  {
    u := Upstream(map[0 := Resting(true), 1 := Live("text", false)], {});
    var u1 := Upstream(map[0 := Live("text", false)], {});
    assert Storage("text", "") == "text";
    assert Rested(u1.phases, 1)[1 := Live("text", false)] == u.phases;
    assert [Other("message_start", ""), TextStart(0), TextStart(1)] == [Other("message_start", ""), TextStart(0)] + [TextStart(1)];
    FollowTwo(UNUSED, Other("message_start", ""), TextStart(0), [TextStart(1)], UNUSED, u1, true, false);
    assert [TextStart(1)][1..] == [];
  }

  lemma EndsStopped(u: Upstream, delta: Event) returns (v: Upstream)
    requires u == Upstream(map[0 := Resting(true), 1 := Live("text", false)], {})
    requires delta == DeltaEvent(Some(0), Some(Delta(Some("text_delta"), "")))
    ensures FollowAll(u, [delta, Stop(Some(1)), Stop(Some(0)), END], true, false) == Some(v)
    ensures NoneLive(v.phases) && v.phases != map[]
  {
    var u1 := u.(phases := map[0 := Live("text", false), 1 := Live("text", false)]);
    var u2 := u.(phases := map[0 := Live("text", false), 1 := Resting(false)]);
    v := u.(phases := map[0 := Resting(false), 1 := Resting(false)]);
    assert u.phases[0 := Live("text", false)] == u1.phases;
    assert u1.phases[1 := Resting(false)] == u2.phases;
    assert u2.phases[0 := Resting(false)] == v.phases;
    FollowTwo(u, delta, Stop(Some(1)), [Stop(Some(0)), END], u1, u2, true, false);
    FollowTwo(u2, Stop(Some(0)), END, [], v, v, true, false);
    assert [delta, Stop(Some(1)), Stop(Some(0)), END] == [delta, Stop(Some(1))] + [Stop(Some(0)), END];
    assert [Stop(Some(0)), END] == [Stop(Some(0)), END] + [];
    assert 0 in v.phases;
  }
}
