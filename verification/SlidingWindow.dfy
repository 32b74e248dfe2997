/** The strict sliding-window limiter (core/rate_limit.py). Every locked region is one atomic
    step that reads the clock once; a run is the list of the clock readings of all attempts of
    all tasks, in the order in which they held the lock. */
module SlidingWindow {
  import opened Text

  datatype Config = Config(limit: int, window: real) {
    predicate Accepted() {
      limit > 0 && window > 0.0
    }
  }

  /** Dropping from the front everything that is not younger than `cutoff`. */
  function Evict(times: seq<real>, cutoff: real): seq<real> {
    if times != [] && times[0] <= cutoff then Evict(times[1..], cutoff) else times
  }

  /** The outcome of one attempt: the deque after it, and the time to sleep if refused. */
  datatype Attempt = Granted(times: seq<real>) | Refused(times: seq<real>, wait: real)

  function Try(cfg: Config, times: seq<real>, now: real): Attempt
    requires cfg.Accepted()
  {
    var live := Evict(times, now - cfg.window);
    if |live| < cfg.limit then Granted(live + [now])
    else Refused(live, var w := live[0] + cfg.window - now; if w > 0.0 then w else 0.0)
  }

  class StrictSlidingWindowLimiter {
    const cfg: Config
    var times: seq<real>

    constructor (cfg: Config)
      requires cfg.Accepted()
      ensures this.cfg == cfg && times == []
    {
      this.cfg := cfg;
      times := [];
    }

    /** The locked region of one round of `acquire`: no result means the slot was taken,
        otherwise the result is how long to sleep before the next round. */
    method AcquireRound(now: real) returns (waitTime: Option<real>)
      requires cfg.Accepted()
      modifies this
      ensures match Try(cfg, old(times), now)
              case Granted(ts) => times == ts && waitTime == None
              case Refused(ts, w) => times == ts && waitTime == Some(w)
    {
      var cutoff := now - cfg.window;
      ghost var before := times;
      while times != [] && times[0] <= cutoff
        invariant Evict(times, cutoff) == Evict(before, cutoff)
        decreases |times|
      {
        times := times[1..];
      }
      if |times| < cfg.limit {
        times := times + [now];
        return None;
      }
      var oldest := times[0];
      var w := oldest + cfg.window - now;
      return Some(if w > 0.0 then w else 0.0);
    }
  }

  /** A limiter is only built for a positive limit and a positive window. */
  method Build(limit: int, window: real) returns (r: Option<StrictSlidingWindowLimiter>)
    ensures r.Some? <==> limit > 0 && window > 0.0
    ensures r.Some? ==> fresh(r.value) && r.value.cfg == Config(limit, window) && r.value.times == []
  {
    if limit <= 0 || window <= 0.0 {
      return None;
    }
    var l := new StrictSlidingWindowLimiter(Config(limit, window));
    return Some(l);
  }

  // ---------------------------------------------------------------- runs

  /** The deque and all acquisitions so far. */
  datatype State = State(times: seq<real>, granted: seq<real>)

  function Step(cfg: Config, s: State, now: real): State
    requires cfg.Accepted()
  {
    match Try(cfg, s.times, now)
    case Granted(ts) => State(ts, s.granted + [now])
    case Refused(ts, _) => State(ts, s.granted)
  }

  const START := State([], [])

  function Run(cfg: Config, s: State, readings: seq<real>): State
    requires cfg.Accepted()
    decreases |readings|
  {
    if readings == [] then s else Run(cfg, Step(cfg, s, readings[0]), readings[1..])
  }

  /** A clock that does not run backwards, beginning at `from`. */
  predicate Clock(from: real, readings: seq<real>)
    decreases |readings|
  {
    readings == [] || (from <= readings[0] && Clock(readings[0], readings[1..]))
  }

  function Last(from: real, readings: seq<real>): real {
    if readings == [] then from else readings[|readings| - 1]
  }

  ghost predicate Ordered(xs: seq<real>, i: int, j: int) {
    0 <= i < j < |xs| ==> xs[i] <= xs[j]
  }

  ghost predicate NonDecreasing(xs: seq<real>) {
    forall i, j :: Ordered(xs, i, j)
  }

  ghost predicate SpacedAt(cfg: Config, xs: seq<real>, i: int)
    requires cfg.Accepted()
  {
    0 <= i && i + cfg.limit < |xs| ==> xs[i] + cfg.window <= xs[i + cfg.limit]
  }

  ghost predicate Spaced(cfg: Config, xs: seq<real>)
    requires cfg.Accepted()
  {
    forall i :: SpacedAt(cfg, xs, i)
  }

  /** The first acquisition from `first` on that is younger than `cutoff`. */
  function FirstYoung(granted: seq<real>, first: nat, cutoff: real): (r: nat)
    requires first <= |granted|
    ensures first <= r <= |granted|
    ensures forall i :: first <= i < r ==> granted[i] <= cutoff
    ensures r < |granted| ==> cutoff < granted[r]
    decreases |granted| - first
  {
    if first < |granted| && granted[first] <= cutoff then FirstYoung(granted, first + 1, cutoff) else first
  }

  /** The deque holds the acquisitions from `first` on: what is missing in front of it left the
      window, and it never holds more than the limit. */
  ghost predicate Inv(cfg: Config, granted: seq<real>, first: nat, now: real)
    requires cfg.Accepted()
  {
    && first <= |granted| <= first + cfg.limit
    && NonDecreasing(granted)
    && (forall i :: 0 <= i < |granted| ==> granted[i] <= now)
    && (forall i :: 0 <= i < first ==> granted[i] <= now - cfg.window)
    && Spaced(cfg, granted)
  }

  lemma GrantKeepsInv(cfg: Config, granted: seq<real>, first: nat, then_: real, now: real)
    requires cfg.Accepted() && then_ <= now && Inv(cfg, granted, first, then_)
    ensures var f := FirstYoung(granted, first, now - cfg.window);
            && Inv(cfg, granted, f, now)
            && (|granted| - f < cfg.limit ==> Inv(cfg, granted + [now], f, now))
  {
    var f := FirstYoung(granted, first, now - cfg.window);
    if |granted| - f < cfg.limit {
      var ys := granted + [now];
      forall i
        ensures SpacedAt(cfg, ys, i)
      {
        assert SpacedAt(cfg, granted, i);
        assert 0 <= i && i + cfg.limit == |granted| ==> i < f;
      }
      forall i, j
        ensures Ordered(ys, i, j)
      {
        assert Ordered(granted, i, j);
      }
    }
  }

  lemma {:induction false} EvictIs(granted: seq<real>, first: nat, cutoff: real)
    requires first <= |granted|
    ensures Evict(granted[first..], cutoff) == granted[FirstYoung(granted, first, cutoff)..]
    decreases |granted| - first
  {
    if first < |granted| && granted[first] <= cutoff {
      assert granted[first..][1..] == granted[first + 1..];
      EvictIs(granted, first + 1, cutoff);
    }
  }

  lemma DropBehind(xs: seq<real>, x: real, f: nat)
    requires f <= |xs|
    ensures (xs + [x])[f..] == xs[f..] + [x]
  {
  }

  /** What a step makes of the deque that eviction leaves. */
  lemma StepByEvicted(cfg: Config, s: State, now: real, live: seq<real>)
    requires cfg.Accepted() && live == Evict(s.times, now - cfg.window)
    ensures |live| < cfg.limit ==> Step(cfg, s, now) == State(live + [now], s.granted + [now])
    ensures |live| >= cfg.limit ==> Step(cfg, s, now) == State(live, s.granted)
  {
  }

  lemma StepOnIndices(cfg: Config, s: State, first: nat, now: real)
    requires cfg.Accepted() && first <= |s.granted| && s.times == s.granted[first..]
    ensures var f := FirstYoung(s.granted, first, now - cfg.window);
            var t := Step(cfg, s, now);
            && t.granted == (if |s.granted| - f < cfg.limit then s.granted + [now] else s.granted)
            && t.times == t.granted[f..]
  {
    var f := FirstYoung(s.granted, first, now - cfg.window);
    EvictIs(s.granted, first, now - cfg.window);
    StepByEvicted(cfg, s, now, s.granted[f..]);
    DropBehind(s.granted, now, f);
  }

  /** Where the deque begins after a run. */
  function FirstOf(s: State): int {
    |s.granted| - |s.times|
  }

  ghost predicate RunInv(cfg: Config, s: State, now: real)
    requires cfg.Accepted()
  {
    && 0 <= FirstOf(s)
    && s.times == s.granted[FirstOf(s)..]
    && Inv(cfg, s.granted, FirstOf(s), now)
  }

  lemma StepKeepsInv(cfg: Config, s: State, then_: real, now: real)
    requires cfg.Accepted() && then_ <= now && RunInv(cfg, s, then_)
    ensures RunInv(cfg, Step(cfg, s, now), now)
  {
    StepOnIndices(cfg, s, FirstOf(s), now);
    GrantKeepsInv(cfg, s.granted, FirstOf(s), then_, now);
  }

  lemma {:induction false} RunKeepsInv(cfg: Config, s: State, from: real, readings: seq<real>)
    requires cfg.Accepted() && Clock(from, readings) && RunInv(cfg, s, from)
    ensures RunInv(cfg, Run(cfg, s, readings), Last(from, readings))
    decreases |readings|
  {
    if readings != [] {
      StepKeepsInv(cfg, s, from, readings[0]);
      RunKeepsInv(cfg, Step(cfg, s, readings[0]), readings[0], readings[1..]);
      assert Last(readings[0], readings[1..]) == Last(from, readings);
    }
  }

  /** All acquisitions of a run. */
  function Acquisitions(cfg: Config, readings: seq<real>): seq<real>
    requires cfg.Accepted()
  {
    Run(cfg, START, readings).granted
  }

  /** Whatever tasks compete, an acquisition comes at least a full window after the one that
      many acquisitions before it, and so does every later one. */
  lemma AcquisitionsAreSpaced(cfg: Config, from: real, readings: seq<real>, i: nat, j: nat)
    requires cfg.Accepted() && Clock(from, readings)
    requires i + cfg.limit <= j < |Acquisitions(cfg, readings)|
    ensures var g := Acquisitions(cfg, readings);
            g[i] + cfg.window <= g[j]
  {
    var s := RunFromStart(cfg, from, readings);
    FarApart(cfg, s.granted, FirstOf(s), Last(from, readings), i, j);
  }

  lemma RunFromStart(cfg: Config, from: real, readings: seq<real>) returns (s: State)
    requires cfg.Accepted() && Clock(from, readings)
    ensures s == Run(cfg, START, readings)
    ensures 0 <= FirstOf(s) && Inv(cfg, s.granted, FirstOf(s), Last(from, readings))
    ensures s.times == s.granted[FirstOf(s)..]
  {
    RunKeepsInv(cfg, START, from, readings);
    s := Run(cfg, START, readings);
  }

  lemma FarApart(cfg: Config, g: seq<real>, first: nat, now: real, i: nat, j: nat)
    requires cfg.Accepted() && Inv(cfg, g, first, now)
    requires i + cfg.limit <= j < |g|
    ensures g[i] + cfg.window <= g[j]
  {
    var k := i + cfg.limit;
    assert SpacedAt(cfg, g, i);
    assert Ordered(g, k, j);
  }

  /** The positions of the acquisitions in the half-open interval of window length at `t`. */
  function InWindow(cfg: Config, granted: seq<real>, t: real): set<int> {
    set i | 0 <= i < |granted| && t <= granted[i] < t + cfg.window
  }

  /** The `n` integers from `lo` on. */
  function Range(lo: int, n: nat): (r: set<int>)
    ensures |r| == n
    ensures forall x :: x in r <==> lo <= x < lo + n
  {
    if n == 0 then {} else Range(lo, n - 1) + {lo + n - 1}
  }

  lemma SubsetSize(a: set<int>, b: set<int>)
    requires a <= b
    ensures |a| <= |b|
  {
    assert b == a + (b - a);
  }

  /** The first position at which the list reaches `t`. */
  function FirstFrom(granted: seq<real>, t: real): (m: nat)
    ensures m <= |granted|
    ensures m < |granted| ==> t <= granted[m]
    ensures forall i :: 0 <= i < m ==> granted[i] < t
  {
    if granted == [] || t <= granted[0] then 0 else 1 + FirstFrom(granted[1..], t)
  }

  /** The guarantee itself: no half-open interval of window length, wherever it begins, holds
      more acquisitions than the limit. */
  lemma AtMostLimitPerWindow(cfg: Config, from: real, readings: seq<real>, t: real)
    requires cfg.Accepted() && Clock(from, readings)
    ensures |InWindow(cfg, Acquisitions(cfg, readings), t)| <= cfg.limit
  {
    var g := Acquisitions(cfg, readings);
    var inside, m := InWindow(cfg, g, t), FirstFrom(g, t);
    forall x | x in inside
      ensures m <= x < m + cfg.limit
    {
      if m + cfg.limit <= x {
        AcquisitionsAreSpaced(cfg, from, readings, m, x);
      }
    }
    SubsetSize(inside, Range(m, cfg.limit));
  }

  /** The acquisitions an attempt at `now` has to count. */
  function Recent(cfg: Config, granted: seq<real>, now: real): set<int> {
    set i | 0 <= i < |granted| && now - cfg.window < granted[i]
  }

  /** The limiter is not stricter than it has to be: an attempt is granted exactly when fewer
      acquisitions than the limit lie in the window that ends at the attempt. */
  lemma GrantedExactly(cfg: Config, from: real, readings: seq<real>, now: real)
    requires cfg.Accepted() && Clock(from, readings) && Last(from, readings) <= now
    ensures Try(cfg, Run(cfg, START, readings).times, now).Granted?
            <==> |Recent(cfg, Acquisitions(cfg, readings), now)| < cfg.limit
  {
    var g := Acquisitions(cfg, readings);
    var f := LiveInRun(cfg, from, readings, now);
    assert Recent(cfg, g, now) == Range(f, |g| - f);
  }

  /** At the next attempt the deque begins, after eviction, exactly where the window does. */
  lemma LiveInRun(cfg: Config, from: real, readings: seq<real>, now: real) returns (f: nat)
    requires cfg.Accepted() && Clock(from, readings) && Last(from, readings) <= now
    ensures var g := Acquisitions(cfg, readings);
            && f <= |g| <= f + cfg.limit
            && Evict(Run(cfg, START, readings).times, now - cfg.window) == g[f..]
            && (forall i :: 0 <= i < f ==> g[i] <= now - cfg.window)
            && (forall i :: f <= i < |g| ==> now - cfg.window < g[i])
  {
    var s := RunFromStart(cfg, from, readings);
    f := YoungFrom(cfg, s, Last(from, readings), now);
  }

  lemma YoungFrom(cfg: Config, s: State, then_: real, now: real) returns (f: nat)
    requires cfg.Accepted() && then_ <= now && RunInv(cfg, s, then_)
    ensures f <= |s.granted| <= f + cfg.limit
    ensures Evict(s.times, now - cfg.window) == s.granted[f..]
    ensures forall i :: 0 <= i < f ==> s.granted[i] <= now - cfg.window
    ensures forall i :: f <= i < |s.granted| ==> now - cfg.window < s.granted[i]
  {
    f := FirstYoung(s.granted, FirstOf(s), now - cfg.window);
    EvictIs(s.granted, FirstOf(s), now - cfg.window);
    forall i | f <= i < |s.granted|
      ensures now - cfg.window < s.granted[i]
    {
      assert Ordered(s.granted, f, i);
    }
  }

  /** A refused attempt is told to sleep for exactly as long as needed: if nobody else acquires
      meanwhile, every earlier attempt is refused again and the one after the sleep is granted.
      The wait is positive, so the branch that sleeps for no time is never taken. */
  lemma WaitIsExact(cfg: Config, from: real, readings: seq<real>, now: real, later: real)
    requires cfg.Accepted() && Clock(from, readings) && Last(from, readings) <= now <= later
    requires Try(cfg, Run(cfg, START, readings).times, now).Refused?
    ensures var r := Try(cfg, Run(cfg, START, readings).times, now);
            && r.wait > 0.0
            && (Try(cfg, r.times, later).Granted? <==> now + r.wait <= later)
  {
    var f := LiveInRun(cfg, from, readings, now);
    var live := Try(cfg, Run(cfg, START, readings).times, now).times;
    assert live[0] == Acquisitions(cfg, readings)[f];
    if live[0] <= later - cfg.window {
      EvictShrinks(live[1..], later - cfg.window);
    }
  }

  lemma {:induction false} EvictShrinks(times: seq<real>, cutoff: real)
    ensures |Evict(times, cutoff)| <= |times|
  {
    if times != [] && times[0] <= cutoff {
      EvictShrinks(times[1..], cutoff);
    }
  }
}
