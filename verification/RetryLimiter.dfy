/** Provider calls under the global rate limiter (providers/rate_limit.py). */
module RetryLimiter {
  import opened Text
  import SW = SlidingWindow

  // Any number of tasks, each in its own retry loop, share one sliding window and one reactive
  // block. Between two suspension points a task runs alone, so each stretch between them is one
  // atomic step.

  /** How one call of the wrapped function ends: with a result, with an error that is passed on
      at once, or with a 429 or 5xx status that is retried. */
  datatype Outcome = Succeeded | Fatal | Transient

  /** How a whole retry loop ends. */
  datatype Ending = Returned | Raised | Exhausted

  datatype Params = Params(limiter: SW.Config, maxRetries: nat, baseDelay: real, maxDelay: real) {
    predicate Accepted() {
      limiter.Accepted()
    }

    /** The backoff after attempt number `attempt`, without jitter. */
    function Backoff(attempt: nat): real {
      var d := baseDelay * Pow2(attempt);
      if d <= maxDelay then d else maxDelay
    }
  }

  function Pow2(n: nat): real {
    if n == 0 then 1.0 else 2.0 * Pow2(n - 1)
  }

  /** Where a task stands in its loop; `attempt` counts from zero. */
  datatype Task =
    | Checking(attempt: nat)
    | Sleeping(attempt: nat, until: real)
    | Acquiring(attempt: nat, until: real)
    | Calling(attempt: nat)
    | BackingOff(attempt: nat, until: real)
    | Done(ending: Ending, attempts: nat)

  /** A call of the wrapped function: which task, and when it began. */
  datatype Start = Start(task: nat, time: real)

  datatype World = World(
    now: real,
    tasks: seq<Task>,
    window: SW.State,
    blockedUntil: real,
    readings: seq<real>,
    starts: seq<Start>)

  datatype Action =
    | Spawn
    | Tick(elapsed: real)
    | Advance(task: nat)
    | CallEnds(task: nat, outcome: Outcome, jitter: real)

  function Begin(now: real): World {
    World(now, [], SW.START, 0.0, [], [])
  }

  /** The task is not waiting any more. */
  predicate Due(t: Task, now: real) {
    match t
    case Checking(_) => true
    case Sleeping(_, until) => until <= now
    case Acquiring(_, until) => until <= now
    case BackingOff(_, until) => until <= now
    case _ => false
  }

  /** The next stretch of the task begins with its one check of the reactive block. */
  predicate Checks(t: Task) {
    t.Checking? || t.BackingOff?
  }

  /** The next stretch gets as far as a round of the sliding window: nothing is awaited between a
      check that passes and the first round, nor between a granted round and the call. */
  predicate Rounds(blockedUntil: real, t: Task, now: real) {
    Due(t, now) && !(Checks(t) && now < blockedUntil)
  }

  /** The task after its next stretch. */
  function Advanced(p: Params, blockedUntil: real, times: seq<real>, t: Task, now: real): Task
    requires p.Accepted()
  {
    if !Due(t, now) then t
    else if Checks(t) && now < blockedUntil then Sleeping(t.attempt, blockedUntil)
    else
      match SW.Try(p.limiter, times, now)
      case Granted(_) => Calling(t.attempt)
      case Refused(_, wait) => Acquiring(t.attempt, now + wait)
  }

  /** The end of a call: the task afterwards, and until when everything is blocked. */
  function Ended(p: Params, blockedUntil: real, t: Task, outcome: Outcome, jitter: real, now: real): (Task, real) {
    match t
    case Calling(a) =>
      (match outcome
       case Succeeded => (Done(Returned, a + 1), blockedUntil)
       case Fatal => (Done(Raised, a + 1), blockedUntil)
       case Transient =>
         if a >= p.maxRetries then (Done(Exhausted, a + 1), blockedUntil)
         else
           var until := now + p.Backoff(a) + jitter;
           (BackingOff(a + 1, until), until))
    case _ => (t, blockedUntil)
  }

  function AdvanceTask(p: Params, w: World, i: nat): World
    requires p.Accepted() && i < |w.tasks|
  {
    var next := Advanced(p, w.blockedUntil, w.window.times, w.tasks[i], w.now);
    var moved := w.(tasks := w.tasks[i := next]);
    if !Rounds(w.blockedUntil, w.tasks[i], w.now) then moved
    else
      moved.(window := SW.Step(p.limiter, w.window, w.now), readings := w.readings + [w.now],
             starts := if next.Calling? then w.starts + [Start(i, w.now)] else w.starts)
  }

  function EndCall(p: Params, w: World, i: nat, outcome: Outcome, jitter: real): World
    requires p.Accepted() && i < |w.tasks|
  {
    var (next, until) := Ended(p, w.blockedUntil, w.tasks[i], outcome, jitter, w.now);
    w.(tasks := w.tasks[i := next], blockedUntil := until)
  }

  /** The limiter object that the tasks share. */
  class GlobalRateLimiter {
    const p: Params
    const proactive: SW.StrictSlidingWindowLimiter
    var blockedUntil: real

    constructor (p: Params)
      requires p.Accepted()
      ensures this.p == p && blockedUntil == 0.0
      ensures fresh(proactive) && proactive.cfg == p.limiter && proactive.times == []
    {
      this.p := p;
      blockedUntil := 0.0;
      proactive := new SW.StrictSlidingWindowLimiter(p.limiter);
    }

    method SetBlocked(seconds: real, now: real)
      modifies this
      ensures blockedUntil == now + seconds
    {
      blockedUntil := now + seconds;
    }

    /** One stretch of a task between two suspension points. */
    method Advance(t: Task, now: real) returns (next: Task)
      requires p.Accepted() && proactive.cfg == p.limiter
      modifies proactive
      ensures next == Advanced(p, blockedUntil, old(proactive.times), t, now)
      ensures proactive.times
              == if Rounds(blockedUntil, t, now) then SW.Try(p.limiter, old(proactive.times), now).times
                 else old(proactive.times)
    {
      if !Due(t, now) {
        return t;
      }
      if Checks(t) && now < blockedUntil {
        return Sleeping(t.attempt, blockedUntil);
      }
      var wait := proactive.AcquireRound(now);
      next := if wait.None? then Calling(t.attempt) else Acquiring(t.attempt, now + wait.value);
    }

    /** What the retry loop does when its call ended. */
    method CallEnded(t: Task, outcome: Outcome, jitter: real, now: real) returns (next: Task)
      modifies this
      ensures (next, blockedUntil) == Ended(p, old(blockedUntil), t, outcome, jitter, now)
    {
      next := t;
      if t.Calling? {
        var attempt := t.attempt;
        match outcome
        case Succeeded => next := Done(Returned, attempt + 1);
        case Fatal => next := Done(Raised, attempt + 1);
        case Transient =>
          if attempt >= p.maxRetries {
            next := Done(Exhausted, attempt + 1);
          } else {
            var delay := p.Backoff(attempt) + jitter;
            SetBlocked(delay, now);
            next := BackingOff(attempt + 1, now + delay);
          }
      }
    }
  }

  function Act(p: Params, w: World, action: Action): World
    requires p.Accepted()
  {
    match action
    case Spawn => w.(tasks := w.tasks + [Checking(0)])
    case Tick(elapsed) => if elapsed > 0.0 then w.(now := w.now + elapsed) else w
    case Advance(i) => if i < |w.tasks| then AdvanceTask(p, w, i) else w
    case CallEnds(i, outcome, jitter) =>
      if i < |w.tasks| && jitter >= 0.0 then EndCall(p, w, i, outcome, jitter) else w
  }

  function Run(p: Params, w: World, actions: seq<Action>): World
    requires p.Accepted()
    decreases |actions|
  {
    if actions == [] then w else Run(p, Act(p, w, actions[0]), actions[1..])
  }

  // ---------------------------------------------------------------- the shared window

  function Times(starts: seq<Start>): seq<real> {
    FlatMap((s: Start) => [s.time], starts)
  }

  /** The limiter has seen exactly the recorded clock readings, and every call of the wrapped
      function is one of its acquisitions, at the same instant. */
  ghost predicate WindowInv(p: Params, from: real, w: World)
    requires p.Accepted()
  {
    && w.window == SW.Run(p.limiter, SW.START, w.readings)
    && SW.Clock(from, w.readings)
    && from <= w.now
    && SW.Last(from, w.readings) <= w.now
    && Times(w.starts) == w.window.granted
  }

  lemma {:induction false} ClockSnoc(from: real, readings: seq<real>, now: real)
    requires SW.Clock(from, readings) && SW.Last(from, readings) <= now
    ensures SW.Clock(from, readings + [now]) && SW.Last(from, readings + [now]) == now
    decreases |readings|
  {
    if readings == [] {
      assert [now][1..] == [];
    } else {
      assert (readings + [now])[1..] == readings[1..] + [now];
      assert SW.Last(readings[0], readings[1..]) == SW.Last(from, readings);
      ClockSnoc(readings[0], readings[1..], now);
    }
  }

  lemma {:induction false} RunSnoc(cfg: SW.Config, s: SW.State, readings: seq<real>, now: real)
    requires cfg.Accepted()
    ensures SW.Run(cfg, s, readings + [now]) == SW.Step(cfg, SW.Run(cfg, s, readings), now)
    decreases |readings|
  {
    if readings == [] {
      assert [now][1..] == [];
    } else {
      assert (readings + [now])[1..] == readings[1..] + [now];
      RunSnoc(cfg, SW.Step(cfg, s, readings[0]), readings[1..], now);
    }
  }

  lemma AdvanceKeepsWindow(p: Params, from: real, w: World, i: nat)
    requires p.Accepted() && WindowInv(p, from, w) && i < |w.tasks|
    ensures WindowInv(p, from, AdvanceTask(p, w, i))
  {
    if Rounds(w.blockedUntil, w.tasks[i], w.now) {
      ClockSnoc(from, w.readings, w.now);
      RunSnoc(p.limiter, SW.START, w.readings, w.now);
      FlatMapSnoc((s: Start) => [s.time], w.starts, Start(i, w.now));
    }
  }

  lemma {:induction false} RunKeepsWindow(p: Params, from: real, w: World, actions: seq<Action>)
    requires p.Accepted() && WindowInv(p, from, w)
    ensures WindowInv(p, from, Run(p, w, actions))
    decreases |actions|
  {
    if actions != [] {
      if actions[0].Advance? && actions[0].task < |w.tasks| {
        AdvanceKeepsWindow(p, from, w, actions[0].task);
      }
      RunKeepsWindow(p, from, Act(p, w, actions[0]), actions[1..]);
    }
  }

  /** The attempts of all retry loops together obey the rate limit: no half-open interval of
      window length holds more calls of wrapped functions than the limit, in any interleaving
      of any number of tasks. */
  lemma AllAttemptsObeyTheWindow(p: Params, from: real, actions: seq<Action>, t: real)
    requires p.Accepted()
    ensures |SW.InWindow(p.limiter, Times(Run(p, Begin(from), actions).starts), t)| <= p.limiter.limit
  {
    RunKeepsWindow(p, from, Begin(from), actions);
    SW.AtMostLimitPerWindow(p.limiter, from, Run(p, Begin(from), actions).readings, t);
  }

  // ---------------------------------------------------------------- each retry loop

  function StartsOf(starts: seq<Start>, i: nat): seq<real> {
    FlatMap((s: Start) => if s.task == i then [s.time] else [], starts)
  }

  /** The attempts a task has begun, read off its position in the loop. */
  function Begun(t: Task): nat {
    match t
    case Calling(a) => a + 1
    case Done(_, n) => n
    case _ => t.attempt
  }

  /** Backoff is kept between the attempts of one task. */
  ghost predicate Backed(p: Params, times: seq<real>, k: int) {
    0 <= k && k + 1 < |times| ==> times[k] + p.Backoff(k) <= times[k + 1]
  }

  /** A task counts its attempts right, stays within its allowance, and the next attempt is not
      due before the backoff after the last one is over. */
  ghost predicate TaskInv(p: Params, t: Task, times: seq<real>, now: real) {
    && |times| == Begun(t)
    && (forall k :: Backed(p, times, k))
    && (|times| > 0 ==> times[|times| - 1] <= now)
    && (match t
        case Done(ending, n) =>
          0 < n <= p.maxRetries + 1 && (ending == Exhausted ==> n == p.maxRetries + 1)
        case BackingOff(a, until) =>
          0 < a <= p.maxRetries && times[a - 1] + p.Backoff(a - 1) <= until
        case Calling(a) => a <= p.maxRetries
        case _ =>
          t.attempt <= p.maxRetries && (t.attempt > 0 ==> times[t.attempt - 1] + p.Backoff(t.attempt - 1) <= now))
  }

  ghost predicate TaskAt(p: Params, w: World, i: int) {
    && (0 <= i < |w.tasks| ==> TaskInv(p, w.tasks[i], StartsOf(w.starts, i), w.now))
    && (|w.tasks| <= i ==> StartsOf(w.starts, i) == [])
  }

  lemma StartsSnoc(starts: seq<Start>, s: Start, i: nat)
    ensures StartsOf(starts + [s], i)
            == if s.task == i then StartsOf(starts, i) + [s.time] else StartsOf(starts, i)
  {
    FlatMapSnoc((s: Start) => if s.task == i then [s.time] else [], starts, s);
    assert StartsOf(starts, i) + [] == StartsOf(starts, i);
  }

  lemma AttemptKeepsTask(p: Params, t: Task, times: seq<real>, now: real)
    requires TaskInv(p, t, times, now) && Due(t, now)
    ensures TaskInv(p, Calling(t.attempt), times + [now], now)
  {
    forall k
      ensures Backed(p, times + [now], k)
    {
      assert Backed(p, times, k);
    }
  }

  lemma AdvanceKeepsTask(p: Params, w: World, i: nat, j: nat)
    requires p.Accepted() && i < |w.tasks| && TaskAt(p, w, j)
    ensures TaskAt(p, AdvanceTask(p, w, i), j)
  {
    StartsSnoc(w.starts, Start(i, w.now), j);
    if j == i && Rounds(w.blockedUntil, w.tasks[i], w.now) {
      AttemptKeepsTask(p, w.tasks[i], StartsOf(w.starts, i), w.now);
    }
  }

  lemma EndKeepsTask(p: Params, w: World, i: nat, outcome: Outcome, jitter: real, j: nat)
    requires p.Accepted() && i < |w.tasks| && jitter >= 0.0 && TaskAt(p, w, j)
    ensures TaskAt(p, EndCall(p, w, i, outcome, jitter), j)
  {
  }

  lemma ActKeepsTask(p: Params, w: World, action: Action, j: nat)
    requires p.Accepted() && TaskAt(p, w, j)
    ensures TaskAt(p, Act(p, w, action), j)
  {
    match action
    case Advance(i) =>
      if i < |w.tasks| {
        AdvanceKeepsTask(p, w, i, j);
      }
    case CallEnds(i, outcome, jitter) =>
      if i < |w.tasks| && jitter >= 0.0 {
        EndKeepsTask(p, w, i, outcome, jitter, j);
      }
    case _ =>
  }

  lemma {:induction false} RunKeepsTask(p: Params, w: World, actions: seq<Action>, j: nat)
    requires p.Accepted() && TaskAt(p, w, j)
    ensures TaskAt(p, Run(p, w, actions), j)
    decreases |actions|
  {
    if actions != [] {
      ActKeepsTask(p, w, actions[0], j);
      RunKeepsTask(p, Act(p, w, actions[0]), actions[1..], j);
    }
  }

  function Lesser(x: real, y: real): real {
    if x <= y then x else y
  }

  lemma {:induction false} Pow2IsPositive(n: nat)
    ensures Pow2(n) >= 1.0
  {
    if n > 0 {
      Pow2IsPositive(n - 1);
    }
  }

  /** The backoff starts with the base delay and doubles with every attempt, up to the maximum. */
  lemma BackoffDoubles(p: Params, a: nat)
    requires p.maxDelay >= 0.0
    ensures p.Backoff(0) == Lesser(p.baseDelay, p.maxDelay)
    ensures p.baseDelay >= 0.0 ==> p.Backoff(a + 1) == Lesser(2.0 * p.Backoff(a), p.maxDelay)
    ensures p.baseDelay >= 0.0 ==> 0.0 <= p.Backoff(a) <= p.Backoff(a + 1) <= p.maxDelay
  {
    var x, y := p.baseDelay * Pow2(a), p.baseDelay * Pow2(a + 1);
    assert Pow2(0) == 1.0 && p.baseDelay * 1.0 == p.baseDelay;
    assert y == p.baseDelay * (2.0 * Pow2(a)) == 2.0 * x;
    Pow2IsPositive(a);
    if p.baseDelay >= 0.0 {
      ProductIsPositive(p.baseDelay, Pow2(a));
    }
  }

  lemma ProductIsPositive(x: real, y: real)
    requires x >= 0.0 && y >= 0.0
    ensures x * y >= 0.0
  {
  }

  /** Delays that begin with the base delay and double up to the maximum. */
  predicate Doubling(p: Params, delays: seq<real>) {
    && (delays != [] ==> delays[0] == Lesser(p.baseDelay, p.maxDelay))
    && forall k :: 0 <= k < |delays| - 1 ==> delays[k + 1] == Lesser(2.0 * delays[k], p.maxDelay)
  }

  lemma BackoffsAreDoubling(p: Params, n: nat) returns (delays: seq<real>)
    requires p.baseDelay >= 0.0 && p.maxDelay >= 0.0
    ensures |delays| == n && Doubling(p, delays) && forall k :: 0 <= k < n ==> delays[k] == p.Backoff(k)
  {
    delays := seq(n, k requires 0 <= k => p.Backoff(k));
    BackoffDoubles(p, 0);
    forall k | 0 <= k < n - 1
      ensures delays[k + 1] == Lesser(2.0 * delays[k], p.maxDelay)
    {
      BackoffDoubles(p, k);
    }
  }

  /** Every retry loop, in every interleaving: at most one attempt more than the allowed
      retries, exactly that many if it ends exhausted, and between two attempts of one loop at
      least the exponential backoff that belongs to the first of them. */
  lemma EachLoopIsBounded(p: Params, from: real, actions: seq<Action>, i: nat) returns (delays: seq<real>)
    requires p.Accepted()
    ensures var w := Run(p, Begin(from), actions);
            var times := StartsOf(w.starts, i);
            && |times| <= p.maxRetries + 1
            && (forall k :: Backed(p, times, k))
            && (i < |w.tasks| && w.tasks[i].Done? && w.tasks[i].ending == Exhausted ==>
                  |times| == p.maxRetries + 1)
    ensures p.baseDelay >= 0.0 && p.maxDelay >= 0.0 ==>
              var times := StartsOf(Run(p, Begin(from), actions).starts, i);
              && |delays| == |times| && Doubling(p, delays)
              && forall k :: 0 <= k < |times| - 1 ==> times[k] + delays[k] <= times[k + 1]
  {
    RunKeepsTask(p, Begin(from), actions, i);
    var times := StartsOf(Run(p, Begin(from), actions).starts, i);
    delays := [];
    if p.baseDelay >= 0.0 && p.maxDelay >= 0.0 {
      delays := BackoffsAreDoubling(p, |times|);
      forall k | 0 <= k < |times| - 1
        ensures times[k] + delays[k] <= times[k + 1]
      {
        assert Backed(p, times, k);
      }
    }
  }

  /** A call that is retried blocks everybody until its own task tries again. */
  lemma RetryBlocksUntilItsOwn(p: Params, w: World, i: nat, outcome: Outcome, jitter: real)
    requires p.Accepted() && i < |w.tasks| && w.tasks[i].Calling? && jitter >= 0.0
    ensures var v := Act(p, w, CallEnds(i, outcome, jitter));
            v.tasks[i].BackingOff? ==> v.tasks[i].until == v.blockedUntil == w.now + p.Backoff(w.tasks[i].attempt) + jitter
    ensures Act(p, w, CallEnds(i, outcome, jitter)).tasks[i].BackingOff?
            <==> outcome == Transient && w.tasks[i].attempt < p.maxRetries
  {
  }

  // ---------------------------------------------------------------- how a loop ends

  /** How a step ends the call of a task, if it does. */
  function OutcomeOf(w: World, action: Action, i: nat): seq<Outcome> {
    match action
    case CallEnds(j, outcome, jitter) =>
      if j == i && i < |w.tasks| && jitter >= 0.0 && w.tasks[i].Calling? then [outcome] else []
    case _ => []
  }

  /** How the calls of a task ended in a run. */
  function Outcomes(p: Params, w: World, actions: seq<Action>, i: nat): seq<Outcome>
    requires p.Accepted()
    decreases |actions|
  {
    if actions == [] then [] else OutcomeOf(w, actions[0], i) + Outcomes(p, Act(p, w, actions[0]), actions[1..], i)
  }

  predicate AllTransient(os: seq<Outcome>) {
    forall k :: 0 <= k < |os| ==> os[k] == Transient
  }

  /** The calls of a task say where it stands: it goes on as long as they fail transiently and
      retries are left, and otherwise ends as the last one says. */
  predicate Tells(p: Params, t: Task, os: seq<Outcome>) {
    match t
    case Done(ending, n) =>
      && n == |os| > 0 && AllTransient(os[..n - 1])
      && (match ending
          case Returned => os[n - 1] == Succeeded
          case Raised => os[n - 1] == Fatal
          case Exhausted => os[n - 1] == Transient && n == p.maxRetries + 1)
    case _ => t.attempt == |os| <= p.maxRetries && AllTransient(os)
  }

  predicate TellsAt(p: Params, w: World, i: nat, os: seq<Outcome>) {
    if i < |w.tasks| then Tells(p, w.tasks[i], os) else os == []
  }

  lemma ActTells(p: Params, w: World, action: Action, i: nat, os: seq<Outcome>)
    requires p.Accepted() && TellsAt(p, w, i, os)
    ensures TellsAt(p, Act(p, w, action), i, os + OutcomeOf(w, action, i))
  {
    assert os + [] == os;
    if OutcomeOf(w, action, i) != [] {
      assert (os + [action.outcome])[..|os|] == os;
    }
  }

  lemma {:induction false} RunTells(p: Params, w: World, actions: seq<Action>, i: nat, os: seq<Outcome>)
    requires p.Accepted() && TellsAt(p, w, i, os)
    ensures TellsAt(p, Run(p, w, actions), i, os + Outcomes(p, w, actions, i))
    decreases |actions|
  {
    if actions == [] {
      assert os + [] == os;
    } else {
      var w1 := Act(p, w, actions[0]);
      var now := OutcomeOf(w, actions[0], i);
      ActTells(p, w, actions[0], i, os);
      RunTells(p, w1, actions[1..], i, os + now);
      ConcatAssoc(os, now, Outcomes(p, w1, actions[1..], i));
    }
  }

  /** Every loop, in every interleaving, ends exactly as its calls say. */
  lemma EachLoopEndsAsItsCalls(p: Params, from: real, actions: seq<Action>, i: nat)
    requires p.Accepted() && i < |Run(p, Begin(from), actions).tasks|
    ensures Tells(p, Run(p, Begin(from), actions).tasks[i], Outcomes(p, Begin(from), actions, i))
  {
    RunTells(p, Begin(from), actions, i, []);
    assert [] + Outcomes(p, Begin(from), actions, i) == Outcomes(p, Begin(from), actions, i);
  }

  // ---------------------------------------------------------------- the reactive block

  /** The task passed its check, or sleeps long enough, for the block as it stands. */
  ghost predicate Honoured(w: World, i: nat) {
    i < |w.tasks| ==>
      && (w.tasks[i].Acquiring? ==> w.blockedUntil <= w.now)
      && (w.tasks[i].Sleeping? ==> w.blockedUntil <= w.tasks[i].until)
  }

  /** No step of the run changes the block. */
  predicate Quiet(p: Params, w: World, actions: seq<Action>)
    requires p.Accepted()
    decreases |actions|
  {
    actions == []
    || (Act(p, w, actions[0]).blockedUntil == w.blockedUntil && Quiet(p, Act(p, w, actions[0]), actions[1..]))
  }

  ghost predicate NotBefore(times: seq<real>, n: nat, bound: real) {
    forall k :: n <= k < |times| ==> bound <= times[k]
  }

  lemma ActHonours(p: Params, w: World, action: Action, i: nat)
    requires p.Accepted() && Honoured(w, i) && Act(p, w, action).blockedUntil == w.blockedUntil
    ensures Honoured(Act(p, w, action), i)
    ensures var old_, new_ := StartsOf(w.starts, i), StartsOf(Act(p, w, action).starts, i);
            new_ == old_ || (new_ == old_ + [w.now] && w.blockedUntil <= w.now)
  {
    if action.Advance? && action.task < |w.tasks| {
      StartsSnoc(w.starts, Start(action.task, w.now), i);
    }
  }

  /** As long as no loop sets the block anew, no attempt of a task that honours it begins before
      it is over. */
  lemma {:induction false} BlockHoldsWhileUnchanged(p: Params, w: World, actions: seq<Action>, i: nat)
    requires p.Accepted() && Honoured(w, i) && Quiet(p, w, actions)
    ensures Honoured(Run(p, w, actions), i)
    ensures Run(p, w, actions).blockedUntil == w.blockedUntil
    ensures NotBefore(StartsOf(Run(p, w, actions).starts, i), |StartsOf(w.starts, i)|, w.blockedUntil)
    ensures |StartsOf(w.starts, i)| <= |StartsOf(Run(p, w, actions).starts, i)|
    ensures StartsOf(Run(p, w, actions).starts, i)[..|StartsOf(w.starts, i)|] == StartsOf(w.starts, i)
    decreases |actions|
  {
    if actions != [] {
      var w1 := Act(p, w, actions[0]);
      ActHonours(p, w, actions[0], i);
      BlockHoldsWhileUnchanged(p, w1, actions[1..], i);
      var a, b, c := StartsOf(w.starts, i), StartsOf(w1.starts, i), StartsOf(Run(p, w, actions).starts, i);
      assert c[..|b|] == b;
      assert c[..|a|] == b[..|a|] == a;
      assert |a| < |b| ==> c[|a|] == b[|a|] == w.now;
    }
  }

  /** The instant to which a step sets the block, if it does. */
  function SetBy(p: Params, w: World, action: Action): Option<real> {
    match action
    case CallEnds(i, Transient, jitter) =>
      if i < |w.tasks| && jitter >= 0.0 && w.tasks[i].Calling? && w.tasks[i].attempt < p.maxRetries
      then Some(w.now + p.Backoff(w.tasks[i].attempt) + jitter) else None
    case _ => None
  }

  /** The instant to which the block was set last during a run. */
  function LastSet(p: Params, w: World, actions: seq<Action>): Option<real>
    requires p.Accepted()
    decreases |actions|
  {
    if actions == [] then None
    else
      var later := LastSet(p, Act(p, w, actions[0]), actions[1..]);
      if later.Some? then later else SetBy(p, w, actions[0])
  }

  lemma {:induction false} BlockIsLastSet(p: Params, w: World, actions: seq<Action>)
    requires p.Accepted()
    ensures Run(p, w, actions).blockedUntil == LastSet(p, w, actions).GetOr(w.blockedUntil)
    decreases |actions|
  {
    if actions != [] {
      BlockIsLastSet(p, Act(p, w, actions[0]), actions[1..]);
    }
  }

  /** The task sleeps out the block or waits for the window, throughout a run. */
  predicate KeepsWaiting(p: Params, w: World, actions: seq<Action>, i: nat)
    requires p.Accepted()
    decreases |actions|
  {
    && i < |w.tasks| && (w.tasks[i].Sleeping? || w.tasks[i].Acquiring?)
    && (actions == [] || KeepsWaiting(p, Act(p, w, actions[0]), actions[1..], i))
  }

  /** The task will not leave its wait before `bound`. */
  predicate NotDueBefore(w: World, i: nat, bound: real) {
    i < |w.tasks| ==>
      && (w.tasks[i].Acquiring? ==> bound <= w.now)
      && (w.tasks[i].Sleeping? ==> bound <= w.tasks[i].until)
  }

  lemma {:induction false} WaitKeepsBound(p: Params, w: World, actions: seq<Action>, i: nat, bound: real)
    requires p.Accepted() && KeepsWaiting(p, w, actions, i) && NotDueBefore(w, i, bound)
    ensures KeepsWaiting(p, Run(p, w, actions), [], i) && NotDueBefore(Run(p, w, actions), i, bound)
    decreases |actions|
  {
    if actions != [] {
      WaitKeepsBound(p, Act(p, w, actions[0]), actions[1..], i, bound);
    }
  }

  /** The next stretch of the task begins an attempt. */
  predicate Begins(p: Params, w: World, i: nat)
    requires p.Accepted()
  {
    i < |w.tasks| && Due(w.tasks[i], w.now)
    && Advanced(p, w.blockedUntil, w.window.times, w.tasks[i], w.now).Calling?
  }

  predicate IsBlocked(w: World) {
    w.now < w.blockedUntil
  }

  /** The state in which a task makes its check, in a run from the beginning. */
  predicate AtCheck(p: Params, w: World, i: nat) {
    i < |w.tasks| && Due(w.tasks[i], w.now) && Checks(w.tasks[i])
  }

  lemma {:induction false} RunAppend(p: Params, w: World, a: seq<Action>, b: seq<Action>)
    requires p.Accepted()
    ensures Run(p, w, a + b) == Run(p, Run(p, w, a), b)
    decreases |a|
  {
    if a == [] {
      assert a + b == b;
    } else {
      assert (a + b)[1..] == a[1..] + b;
      RunAppend(p, Act(p, w, a[0]), a[1..], b);
    }
  }

  lemma {:induction false} KeepsWaitingSnoc(p: Params, w: World, actions: seq<Action>, last: Action, i: nat)
    requires p.Accepted() && KeepsWaiting(p, w, actions, i)
    requires KeepsWaiting(p, Act(p, Run(p, w, actions), last), [], i)
    ensures KeepsWaiting(p, w, actions + [last], i)
    decreases |actions|
  {
    if actions != [] {
      assert (actions + [last])[1..] == actions[1..] + [last];
      KeepsWaitingSnoc(p, Act(p, w, actions[0]), actions[1..], last, i);
    } else {
      assert [] + [last] == [last] && [last][1..] == [];
    }
  }

  /** The step at `n` is the check behind which the task waits for the rest of the run. */
  predicate CheckedAt(p: Params, from: real, actions: seq<Action>, i: nat, n: nat)
    requires p.Accepted()
  {
    && n < |actions| && actions[n] == Advance(i)
    && AtCheck(p, Run(p, Begin(from), actions[..n]), i)
    && KeepsWaiting(p, Act(p, Run(p, Begin(from), actions[..n]), Advance(i)), actions[n + 1..], i)
  }

  /** Whoever waits has made a check before. */
  lemma {:induction false} WaitWasChecked(p: Params, from: real, actions: seq<Action>, i: nat) returns (n: nat)
    requires p.Accepted() && KeepsWaiting(p, Run(p, Begin(from), actions), [], i)
    ensures CheckedAt(p, from, actions, i, n)
    decreases |actions|
  {
    var m := |actions| - 1;
    var front, last := actions[..m], actions[m];
    assert actions == front + [last];
    RunAppend(p, Begin(from), front, [last]);
    assert [last][1..] == [];
    if KeepsWaiting(p, Run(p, Begin(from), front), [], i) {
      n := WaitWasChecked(p, from, front, i);
      var checked := Act(p, Run(p, Begin(from), front[..n]), Advance(i));
      assert front[..n] == actions[..n] && actions[n + 1..] == front[n + 1..] + [last];
      assert front == front[..n] + ([Advance(i)] + front[n + 1..]);
      RunAppend(p, Begin(from), front[..n], [Advance(i)] + front[n + 1..]);
      assert ([Advance(i)] + front[n + 1..])[1..] == front[n + 1..];
      KeepsWaitingSnoc(p, checked, front[n + 1..], last, i);
    } else {
      n := m;
      assert actions[n + 1..] == [];
    }
  }

  /** When exactly an attempt begins while requests are blocked, for every attempt of every run.
      The attempt has one check, at `n`, which may be in the stretch in which it begins. It begins
      blocked if and only if the block was set behind that check, and the last time to an instant
      that is still to come. */
  lemma AttemptIsBlockedExactly(p: Params, from: real, actions: seq<Action>, i: nat) returns (n: nat)
    requires p.Accepted() && Begins(p, Run(p, Begin(from), actions), i)
    ensures CheckedAt(p, from, actions, i, n) || (n == |actions| && AtCheck(p, Run(p, Begin(from), actions), i))
    ensures var v := Run(p, Begin(from), actions);
            var last := LastSet(p, Run(p, Begin(from), actions[..n]), actions[n..]);
            IsBlocked(v) <==> last.Some? && v.now < last.value
  {
    var v := Run(p, Begin(from), actions);
    if Checks(v.tasks[i]) {
      n := |actions|;
      assert actions[..n] == actions && actions[n..] == [];
    } else {
      n := WaitWasChecked(p, from, actions, i);
      var x := Run(p, Begin(from), actions[..n]);
      var checked := Act(p, x, Advance(i));
      assert actions == actions[..n] + actions[n..] && actions[n..][1..] == actions[n + 1..];
      RunAppend(p, Begin(from), actions[..n], actions[n..]);
      BlockIsLastSet(p, checked, actions[n + 1..]);
      WaitKeepsBound(p, checked, actions[n + 1..], i, checked.blockedUntil);
    }
  }

  /** It does happen: two tasks pass their check, the first one takes the only slot, fails and
      blocks everybody for two seconds, and the second one begins its attempt as soon as the
      window of one second is over. */
  lemma AttemptWhileBlocked() returns (p: Params, actions: seq<Action>)
    ensures p.Accepted()
    ensures var w := Run(p, Begin(0.0), actions);
            && IsBlocked(w) && Begins(p, w, 1)
            && Act(p, w, Advance(1)).starts == w.starts + [Start(1, w.now)]
  {
    p := Params(SW.Config(1, 1.0), 1, 2.0, 60.0);
    var fail := CallEnds(0, Transient, 0.0);
    actions := [Spawn, Spawn, Advance(0), Advance(1), fail, Tick(1.0)];
    var w := BothChecked(p);
    var v := FailedAndWaited(p, w);
    assert actions[2..] == [Advance(0), Advance(1), fail, Tick(1.0)];
    assert actions[2..][2..] == [fail, Tick(1.0)] && [fail, Tick(1.0)][2..] == [];
    RunTwo(p, Begin(0.0), actions);
    RunTwo(p, Act(p, Act(p, Begin(0.0), Spawn), Spawn), actions[2..]);
    RunTwo(p, w, [fail, Tick(1.0)]);
    assert Run(p, Begin(0.0), actions) == v;
  }

  lemma FailedAndWaited(p: Params, w: World) returns (v: World)
    requires p == Params(SW.Config(1, 1.0), 1, 2.0, 60.0)
    requires w == World(0.0, [Calling(0), Acquiring(0, 1.0)], SW.State([0.0], [0.0]), 0.0, [0.0, 0.0], [Start(0, 0.0)])
    ensures v == Act(p, Act(p, w, CallEnds(0, Transient, 0.0)), Tick(1.0))
    ensures IsBlocked(v) && Begins(p, v, 1) && Act(p, v, Advance(1)).starts == v.starts + [Start(1, v.now)]
  {
    assert p.Backoff(0) == 2.0;
    v := w.(now := 1.0, tasks := [BackingOff(1, 2.0), Acquiring(0, 1.0)], blockedUntil := 2.0);
    assert [0.0][1..] == [];
    assert SW.Evict([0.0], 0.0) == [];
    assert SW.Try(p.limiter, [0.0], 1.0).Granted?;
  }

  lemma RunTwo(p: Params, w: World, actions: seq<Action>)
    requires p.Accepted() && |actions| >= 2
    ensures Run(p, w, actions) == Run(p, Act(p, Act(p, w, actions[0]), actions[1]), actions[2..])
  {
    assert actions[1..][1..] == actions[2..];
  }

  lemma BothChecked(p: Params) returns (w: World)
    requires p.limiter == SW.Config(1, 1.0)
    ensures w == World(0.0, [Calling(0), Acquiring(0, 1.0)], SW.State([0.0], [0.0]), 0.0, [0.0, 0.0], [Start(0, 0.0)])
    ensures Act(p, Act(p, Act(p, Act(p, Begin(0.0), Spawn), Spawn), Advance(0)), Advance(1)) == w
  {
    w := World(0.0, [Calling(0), Acquiring(0, 1.0)], SW.State([0.0], [0.0]), 0.0, [0.0, 0.0], [Start(0, 0.0)]);
    var begun := Begin(0.0).(tasks := [Checking(0), Checking(0)]);
    var first := begun.(tasks := [Calling(0), Checking(0)], window := SW.State([0.0], [0.0]),
                        readings := [0.0], starts := [Start(0, 0.0)]);
    assert SW.Evict([], -1.0) == [] && SW.Evict([0.0], -1.0) == [0.0];
    assert [] + [0.0] == [0.0];
    assert SW.Try(p.limiter, [], 0.0) == SW.Granted([0.0]);
    assert SW.Try(p.limiter, [0.0], 0.0) == SW.Refused([0.0], 1.0);
    assert Act(p, Act(p, Begin(0.0), Spawn), Spawn) == begun;
    assert Act(p, begun, Advance(0)) == first;
    assert Act(p, first, Advance(1)) == w;
  }

  // ---------------------------------------------------------------- one loop by itself

  /** The retry loop of one call, given how each attempt would end, when, and with which jitter.
      `delays` are the backoffs slept through between the attempts; the waits in front of the
      attempts are those of `Advance`. */
  method ExecuteWithRetry(limiter: GlobalRateLimiter, outcomeOf: nat -> Outcome, endOf: nat -> real, jitterOf: nat -> real)
    returns (ending: Ending, attempts: nat, delays: seq<real>)
    modifies limiter
    ensures 1 <= attempts <= limiter.p.maxRetries + 1
    ensures forall a :: 0 <= a < attempts - 1 ==> outcomeOf(a) == Transient
    ensures ending == Returned <==> outcomeOf(attempts - 1) == Succeeded
    ensures ending == Raised <==> outcomeOf(attempts - 1) == Fatal
    ensures ending == Exhausted ==> attempts == limiter.p.maxRetries + 1
    ensures |delays| == attempts - 1
    ensures forall a :: 0 <= a < |delays| ==> delays[a] == limiter.p.Backoff(a) + jitterOf(a)
    ensures limiter.blockedUntil
            == if delays == [] then old(limiter.blockedUntil) else endOf(|delays| - 1) + delays[|delays| - 1]
  {
    var totalAttempts := 1 + limiter.p.maxRetries;
    attempts, delays := 0, [];
    for attempt := 0 to totalAttempts
      invariant attempts == attempt == |delays| <= limiter.p.maxRetries
      invariant forall a :: 0 <= a < attempt ==> outcomeOf(a) == Transient
      invariant forall a :: 0 <= a < |delays| ==> delays[a] == limiter.p.Backoff(a) + jitterOf(a)
      invariant limiter.blockedUntil
                == if delays == [] then old(limiter.blockedUntil) else endOf(|delays| - 1) + delays[|delays| - 1]
    {
      attempts := attempts + 1;
      match outcomeOf(attempt)
      case Succeeded => return Returned, attempts, delays;
      case Fatal => return Raised, attempts, delays;
      case Transient =>
        if attempt >= limiter.p.maxRetries {
          break;
        }
        var delay := limiter.p.Backoff(attempt) + jitterOf(attempt);
        limiter.SetBlocked(delay, endOf(attempt));
        delays := delays + [delay];
    }
    return Exhausted, attempts, delays;
  }
}
