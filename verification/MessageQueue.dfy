/** The compacting message queue of the messaging limiter (messaging/limiter.py). */
module MessageQueue {
  import opened Text

  // Enqueuing and taking hold the condition's lock and are atomic steps; running the taken
  // function and resolving its futures is the third kind of step. Any number of tasks enqueue;
  // there is one worker.

  type Key = string
  type Future = nat

  /** Functions are told apart by a number; the result or error of a run is a text. */
  type Func = nat
  type Outcome = string

  /** A function waiting under a key, and all futures that want its result. */
  datatype Entry = Entry(func: Func, futures: seq<Future>)

  /** What ended a future: the run with the given number, or its owner. */
  datatype Ending = ByRun(run: nat) | Cancelled

  /** One finished run of the worker. */
  datatype Run = Run(key: Key, func: Func, futures: seq<Future>, outcome: Outcome)

  datatype State = State(
    queueList: seq<Key>,
    queueMap: map<Key, Entry>,
    inFlight: Option<(Key, Entry)>,
    ended: map<Future, Ending>,
    runs: seq<Run>)

  function Empty(): State {
    State([], map[], None, map[], [])
  }

  datatype Op =
    | Enqueue(key: Key, func: Func, futures: seq<Future>, front: bool)
    | Take
    | Finish(outcome: Outcome)
    | Cancel(future: Future)

  /** Enqueuing under a waiting key replaces the function and keeps the place in the queue. */
  function AfterEnqueue(s: State, key: Key, func: Func, futures: seq<Future>, front: bool): State {
    if key in s.queueMap then
      s.(queueMap := s.queueMap[key := Entry(func, s.queueMap[key].futures + futures)])
    else
      s.(queueMap := s.queueMap[key := Entry(func, futures)],
         queueList := if front then [key] + s.queueList else s.queueList + [key])
  }

  /** The idle worker takes the key at the head, if there is one. */
  function AfterTake(s: State): State {
    if s.inFlight.Some? || s.queueList == [] || s.queueList[0] !in s.queueMap then s
    else
      var key := s.queueList[0];
      s.(queueList := s.queueList[1..], queueMap := s.queueMap - {key},
         inFlight := Some((key, s.queueMap[key])))
  }

  /** Ending the futures one by one, except those that have ended before. */
  function EndEach(ended: map<Future, Ending>, futures: seq<Future>, run: nat): map<Future, Ending>
    decreases |futures|
  {
    if futures == [] then ended
    else EndEach(if futures[0] in ended then ended else ended[futures[0] := ByRun(run)], futures[1..], run)
  }

  lemma {:induction false} EndEachIs(ended: map<Future, Ending>, futures: seq<Future>, run: nat, f: Future)
    ensures var after := EndEach(ended, futures, run);
            && (f in after <==> f in ended || f in futures)
            && (f in after ==> after[f] == if f in ended then ended[f] else ByRun(run))
    decreases |futures|
  {
    if futures != [] {
      assert futures == [futures[0]] + futures[1..];
      EndEachIs(if futures[0] in ended then ended else ended[futures[0] := ByRun(run)], futures[1..], run, f);
    }
  }

  /** The taken function has an outcome, which goes to every future that has not ended. */
  function AfterFinish(s: State, outcome: Outcome): State {
    match s.inFlight
    case None => s
    case Some((key, entry)) =>
      s.(inFlight := None,
         ended := EndEach(s.ended, entry.futures, |s.runs|),
         runs := s.runs + [Run(key, entry.func, entry.futures, outcome)])
  }

  function AfterCancel(s: State, f: Future): State {
    if f in s.ended then s else s.(ended := s.ended[f := Cancelled])
  }

  function Step(s: State, op: Op): State {
    match op
    case Enqueue(key, func, futures, front) => AfterEnqueue(s, key, func, futures, front)
    case Take => AfterTake(s)
    case Finish(outcome) => AfterFinish(s, outcome)
    case Cancel(f) => AfterCancel(s, f)
  }

  /** The state after a whole interleaving; the last operation is the last element. */
  function After(ops: seq<Op>): State {
    if ops == [] then Empty() else Step(After(ops[..|ops| - 1]), ops[|ops| - 1])
  }

  // ---------------------------------------------------------------- the queue object

  class MessagingQueue {
    var queueList: seq<Key>
    var queueMap: map<Key, Entry>
    var inFlight: Option<(Key, Entry)>
    var ended: map<Future, Ending>
    ghost var runs: seq<Run>
    var runCount: nat

    ghost predicate Valid()
      reads this
    {
      runCount == |runs| && QueueInv(Abs())
    }

    ghost function Abs(): State
      reads this
    {
      State(queueList, queueMap, inFlight, ended, runs)
    }

    constructor ()
      ensures Valid() && Abs() == Empty()
    {
      queueList, queueMap, inFlight, ended, runs, runCount := [], map[], None, map[], [], 0;
    }

    method EnqueueInternalMulti(func: Func, futures: seq<Future>, key: Key, front: bool)
      requires Valid()
      modifies this
      ensures Valid() && Abs() == AfterEnqueue(old(Abs()), key, func, futures, front)
    {
      EnqueueKeepsQueueInv(Abs(), key, func, futures, front);
      if key in queueMap {
        var oldFutures := queueMap[key].futures;
        queueMap := queueMap[key := Entry(func, oldFutures + futures)];
      } else {
        queueMap := queueMap[key := Entry(func, futures)];
        if front {
          queueList := [key] + queueList;
        } else {
          queueList := queueList + [key];
        }
      }
    }

    /** Without a key in the queue the worker keeps waiting. */
    method TakeNext() returns (taken: bool)
      requires Valid()
      modifies this
      ensures Valid() && Abs() == AfterTake(old(Abs()))
      ensures taken <==> old(inFlight.None? && queueList != [])
    {
      TakeKeepsQueueInv(Abs());
      if inFlight.Some? || queueList == [] {
        return false;
      }
      var key := queueList[0];
      assert key in queueList;
      queueList := queueList[1..];
      inFlight := Some((key, queueMap[key]));
      queueMap := queueMap - {key};
      return true;
    }

    /** Resolving goes through the futures one by one and skips those that have ended. */
    method FinishRun(outcome: Outcome)
      requires Valid() && inFlight.Some?
      modifies this
      ensures Valid() && Abs() == AfterFinish(old(Abs()), outcome)
    {
      var (key, entry) := inFlight.value;
      ghost var goal := EndEach(ended, entry.futures, runCount);
      for n := 0 to |entry.futures|
        invariant EndEach(ended, entry.futures[n..], runCount) == goal
        invariant queueList == old(queueList) && queueMap == old(queueMap)
        invariant inFlight == old(inFlight) && runs == old(runs) && runCount == old(runCount)
      {
        var f := entry.futures[n];
        assert entry.futures[n..][0] == f && entry.futures[n..][1..] == entry.futures[n + 1..];
        if f !in ended {
          ended := ended[f := ByRun(runCount)];
        }
      }
      inFlight := None;
      runs := runs + [Run(key, entry.func, entry.futures, outcome)];
      runCount := runCount + 1;
    }

    method CancelFuture(f: Future)
      requires Valid()
      modifies this
      ensures Valid() && Abs() == AfterCancel(old(Abs()), f)
    {
      if f !in ended {
        ended := ended[f := Cancelled];
      }
    }
  }

  // ---------------------------------------------------------------- the queue invariant

  predicate Distinct(keys: seq<Key>) {
    keys == [] || (keys[0] !in keys[1..] && Distinct(keys[1..]))
  }

  lemma {:induction false} DistinctSnoc(keys: seq<Key>, k: Key)
    requires Distinct(keys) && k !in keys
    ensures Distinct(keys + [k])
  {
    if keys == [] {
      assert [k][1..] == [];
    } else {
      assert keys == [keys[0]] + keys[1..];
      DistinctSnoc(keys[1..], k);
      assert (keys + [k])[1..] == keys[1..] + [k];
    }
  }

  ghost predicate InBoth(queueList: seq<Key>, queueMap: map<Key, Entry>, k: Key) {
    k in queueList <==> k in queueMap
  }

  /** The list has no key twice and names exactly the keys of the map. */
  ghost predicate QueueInv(s: State) {
    Agree(s.queueList, s.queueMap)
  }

  ghost predicate Agree(queueList: seq<Key>, queueMap: map<Key, Entry>) {
    Distinct(queueList) && forall k :: InBoth(queueList, queueMap, k)
  }

  lemma EnqueueKeepsQueueInv(s: State, key: Key, func: Func, futures: seq<Future>, front: bool)
    requires QueueInv(s)
    ensures QueueInv(AfterEnqueue(s, key, func, futures, front))
  {
    var t := AfterEnqueue(s, key, func, futures, front);
    assert InBoth(s.queueList, s.queueMap, key);
    if key !in s.queueMap {
      DistinctSnoc(s.queueList, key);
      assert ([key] + s.queueList)[1..] == s.queueList;
    }
    forall k
      ensures InBoth(t.queueList, t.queueMap, k)
    {
      assert InBoth(s.queueList, s.queueMap, k);
    }
  }

  lemma TakeKeepsQueueInv(s: State)
    requires QueueInv(s)
    ensures QueueInv(AfterTake(s))
    ensures s.inFlight.None? && s.queueList != [] ==> AfterTake(s) != s && s.queueList[0] in s.queueMap
  {
    var t := AfterTake(s);
    if s.queueList != [] {
      assert s.queueList == [s.queueList[0]] + s.queueList[1..];
      assert InBoth(s.queueList, s.queueMap, s.queueList[0]);
      forall k
        ensures InBoth(t.queueList, t.queueMap, k)
      {
        assert InBoth(s.queueList, s.queueMap, k);
      }
    }
  }

  lemma {:induction false} QueueAgrees(ops: seq<Op>)
    ensures QueueInv(After(ops))
  {
    if ops == [] {
      assert forall k :: InBoth([], map[], k);
    } else {
      var s, op := After(ops[..|ops| - 1]), ops[|ops| - 1];
      QueueAgrees(ops[..|ops| - 1]);
      match op
      case Enqueue(key, func, futures, front) => EnqueueKeepsQueueInv(s, key, func, futures, front);
      case Take => TakeKeepsQueueInv(s);
      case _ =>
    }
  }

  // ---------------------------------------------------------------- conservation of futures

  /** All futures submitted under a key, in the order of submission. */
  function Submitted(ops: seq<Op>, k: Key): seq<Future> {
    FlatMap((op: Op) => SubmittedBy(op, k), ops)
  }

  function SubmittedBy(op: Op, k: Key): seq<Future> {
    if op.Enqueue? && op.key == k then op.futures else []
  }

  function FinishedFor(runs: seq<Run>, k: Key): seq<Future> {
    FlatMap((r: Run) => FinishedBy(r, k), runs)
  }

  function FinishedBy(r: Run, k: Key): seq<Future> {
    if r.key == k then r.futures else []
  }

  function InFlightFor(s: State, k: Key): seq<Future> {
    match s.inFlight
    case Some((key, entry)) => if key == k then entry.futures else []
    case None => []
  }

  function QueuedFor(s: State, k: Key): seq<Future> {
    if k in s.queueMap then s.queueMap[k].futures else []
  }

  /** Where the futures of a key are: with finished runs, in flight, or waiting. */
  function Whereabouts(s: State, k: Key): seq<Future> {
    FinishedFor(s.runs, k) + InFlightFor(s, k) + QueuedFor(s, k)
  }

  lemma EnqueueAddsFutures(s: State, key: Key, func: Func, futures: seq<Future>, front: bool, k: Key)
    ensures Whereabouts(AfterEnqueue(s, key, func, futures, front), k)
            == Whereabouts(s, k) + if key == k then futures else []
  {
    var t := AfterEnqueue(s, key, func, futures, front);
    assert QueuedFor(t, k) == QueuedFor(s, k) + if key == k then futures else [];
    ConcatAssoc(FinishedFor(s.runs, k) + InFlightFor(s, k), QueuedFor(s, k), if key == k then futures else []);
  }

  lemma TakeMovesFutures(s: State, k: Key)
    ensures Whereabouts(AfterTake(s), k) == Whereabouts(s, k)
  {
    if AfterTake(s) != s && s.queueList[0] == k {
      var a, c := FinishedFor(s.runs, k), QueuedFor(s, k);
      assert a + [] + c == a + c + [];
    }
  }

  lemma FinishMovesFutures(s: State, outcome: Outcome, k: Key)
    ensures Whereabouts(AfterFinish(s, outcome), k) == Whereabouts(s, k)
  {
    if s.inFlight.Some? {
      var (key, entry) := s.inFlight.value;
      FlatMapSnoc((r: Run) => FinishedBy(r, k), s.runs, Run(key, entry.func, entry.futures, outcome));
      var a, b := FinishedFor(s.runs, k), InFlightFor(s, k);
      assert a + b + [] == a + b;
    }
  }

  lemma StepMovesFutures(s: State, op: Op, k: Key)
    ensures Whereabouts(Step(s, op), k) == Whereabouts(s, k) + SubmittedBy(op, k)
  {
    match op
    case Enqueue(key, func, futures, front) => EnqueueAddsFutures(s, key, func, futures, front, k);
    case Take => TakeMovesFutures(s, k);
    case Finish(outcome) => FinishMovesFutures(s, outcome, k);
    case Cancel(_) =>
  }

  /** Conservation and order, in every interleaving: the futures submitted under a key are
      exactly those of the finished runs of that key, then of the run in flight, then of the
      waiting entry. None is lost, duplicated or moved to another key. */
  lemma {:induction false} FuturesAreConserved(ops: seq<Op>, k: Key)
    ensures Submitted(ops, k) == Whereabouts(After(ops), k)
  {
    if ops != [] {
      var before, op := ops[..|ops| - 1], ops[|ops| - 1];
      FuturesAreConserved(before, k);
      StepMovesFutures(After(before), op, k);
      assert ops == before + [op];
      FlatMapSnoc((op: Op) => SubmittedBy(op, k), before, op);
    }
  }

  // ---------------------------------------------------------------- futures end once

  /** A future that ended stays as it ended. */
  lemma EndedStays(s: State, op: Op, f: Future)
    requires f in s.ended
    ensures f in Step(s, op).ended && Step(s, op).ended[f] == s.ended[f]
  {
    if op.Finish? && s.inFlight.Some? {
      EndEachIs(s.ended, s.inFlight.value.1.futures, |s.runs|, f);
    }
  }

  /** A future ended by a run was among the futures of that run. */
  ghost predicate EndedRight(s: State, f: Future) {
    f in s.ended && s.ended[f].ByRun? ==>
      s.ended[f].run < |s.runs| && f in s.runs[s.ended[f].run].futures
  }

  /** A finished run left none of its futures open. */
  ghost predicate RunEnds(s: State, n: int, f: Future) {
    0 <= n < |s.runs| && f in s.runs[n].futures ==> f in s.ended
  }

  lemma {:induction false} EndingsAreRight(ops: seq<Op>, f: Future, n: int)
    ensures EndedRight(After(ops), f) && RunEnds(After(ops), n, f)
  {
    if ops != [] {
      var before, op := ops[..|ops| - 1], ops[|ops| - 1];
      var s := After(before);
      EndingsAreRight(before, f, n);
      if op.Finish? && s.inFlight.Some? {
        EndEachIs(s.ended, s.inFlight.value.1.futures, |s.runs|, f);
      }
    }
  }

  lemma {:induction false} InFlatMap<S, T>(f: S -> seq<T>, xs: seq<S>, y: T) returns (n: nat)
    requires y in FlatMap(f, xs)
    ensures n < |xs| && y in f(xs[n])
  {
    if y in f(xs[0]) {
      n := 0;
    } else {
      var m := InFlatMap(f, xs[1..], y);
      n := m + 1;
    }
  }

  /** When the queue is drained and the worker idle, every future ever submitted has ended: by
      the run that took it, or by its owner. */
  lemma DrainedMeansAllEnded(ops: seq<Op>, k: Key, f: Future)
    requires After(ops).queueList == [] && After(ops).inFlight.None?
    requires f in Submitted(ops, k)
    ensures f in After(ops).ended
  {
    var s := After(ops);
    FuturesAreConserved(ops, k);
    QueueAgrees(ops);
    assert InBoth(s.queueList, s.queueMap, k);
    assert f in FinishedFor(s.runs, k);
    var n := InFlatMap((r: Run) => FinishedBy(r, k), s.runs, f);
    EndingsAreRight(ops, f, n);
  }

  // ---------------------------------------------------------------- order of service

  function InsertAt(keys: seq<Key>, n: nat, k: Key): seq<Key> {
    if n <= |keys| then keys[..n] + [k] + keys[n..] else keys + [k]
  }

  /** The order of service that the insertions ask for: a new key comes behind all others or, at
      the front, behind those alone that were served by then. Replacing a waiting function gains
      no place. */
  function Entered(ops: seq<Op>): seq<Key> {
    if ops == [] then []
    else
      var before, op := ops[..|ops| - 1], ops[|ops| - 1];
      if !op.Enqueue? || op.key in After(before).queueMap then Entered(before)
      else if op.front then InsertAt(Entered(before), |Left(After(before))|, op.key)
      else Entered(before) + [op.key]
  }

  function RunKey(r: Run): seq<Key> {
    [r.key]
  }

  /** The keys that left the queue. */
  function Left(s: State): seq<Key> {
    FlatMap((r: Run) => RunKey(r), s.runs) + if s.inFlight.Some? then [s.inFlight.value.0] else []
  }

  /** Keys are served in that order: those served so far, followed by the queue. */
  lemma {:induction false} ServedInInsertionOrder(ops: seq<Op>)
    ensures Entered(ops) == Left(After(ops)) + After(ops).queueList
  {
    if ops != [] {
      var before, op := ops[..|ops| - 1], ops[|ops| - 1];
      var s := After(before);
      ServedInInsertionOrder(before);
      QueueAgrees(before);
      StepKeepsOrder(s, op);
      if op.Enqueue? && op.front {
        InsertBetween(Left(s), s.queueList, op.key);
      } else if op.Enqueue? {
        ConcatAssoc(Left(s), s.queueList, [op.key]);
      }
    }
  }

  lemma InsertBetween(a: seq<Key>, b: seq<Key>, k: Key)
    ensures InsertAt(a + b, |a|, k) == a + ([k] + b)
  {
    assert (a + b)[..|a|] == a && (a + b)[|a|..] == b;
  }

  lemma StepKeepsOrder(s: State, op: Op)
    requires QueueInv(s)
    ensures op.Enqueue? ==> Left(Step(s, op)) == Left(s)
    ensures !op.Enqueue? ==> Left(Step(s, op)) + Step(s, op).queueList == Left(s) + s.queueList
  {
    match op
    case Enqueue(_, _, _, _) =>
    case Take =>
      TakeKeepsQueueInv(s);
      if s.inFlight.None? && s.queueList != [] {
        var k := s.queueList[0];
        assert s.queueList == [k] + s.queueList[1..];
        ConcatAssoc(FlatMap((r: Run) => RunKey(r), s.runs), [k], s.queueList[1..]);
      }
    case Finish(outcome) =>
      if s.inFlight.Some? {
        var (key, entry) := s.inFlight.value;
        FlatMapSnoc((r: Run) => RunKey(r), s.runs, Run(key, entry.func, entry.futures, outcome));
      }
    case Cancel(_) =>
  }

  // ---------------------------------------------------------------- the newest function wins

  /** The function of the last operation that enqueued under a key. */
  function LastFunc(ops: seq<Op>, k: Key): Option<Func> {
    if ops == [] then None
    else
      var op := ops[|ops| - 1];
      if op.Enqueue? && op.key == k then Some(op.func) else LastFunc(ops[..|ops| - 1], k)
  }

  lemma {:induction false} WaitingFuncIsNewest(ops: seq<Op>, k: Key)
    requires k in After(ops).queueMap
    ensures LastFunc(ops, k) == Some(After(ops).queueMap[k].func)
  {
    var before, op := ops[..|ops| - 1], ops[|ops| - 1];
    if !(op.Enqueue? && op.key == k) {
      WaitingFuncIsNewest(before, k);
    }
  }

  /** What the worker takes is the function enqueued last under that key before, together with
      every future submitted under the key that no earlier run had taken. */
  lemma TakenFuncIsNewest(ops: seq<Op>)
    requires var s := After(ops); s.inFlight.None? && s.queueList != []
    ensures var t := After(ops + [Take]);
            && t.inFlight.Some?
            && var (k, entry) := t.inFlight.value;
               && k == After(ops).queueList[0]
               && LastFunc(ops, k) == Some(entry.func)
               && Submitted(ops, k) == FinishedFor(After(ops).runs, k) + entry.futures
  {
    var s := After(ops);
    assert (ops + [Take])[..|ops|] == ops;
    QueueAgrees(ops);
    TakeKeepsQueueInv(s);
    var k := s.queueList[0];
    WaitingFuncIsNewest(ops, k);
    FuturesAreConserved(ops, k);
  }

  // ---------------------------------------------------------------- the worker's day

  /** What an onlooker without the map notes down: the keys in line, what the worker runs, and
      what it has run with which outcome. */
  datatype Board = Board(line: seq<Key>, busy: Option<(Key, Func)>, done: seq<(Key, Func, Outcome)>)

  /** A key enters once, at its end; an idle worker goes to the first in line and runs the
      function named last; a busy one ends what it runs. */
  function Watched(ops: seq<Op>): Board {
    if ops == [] then Board([], None, [])
    else
      var before, op := ops[..|ops| - 1], ops[|ops| - 1];
      var b := Watched(before);
      match op
      case Enqueue(key, _, _, front) =>
        if key in b.line then b
        else if front then b.(line := [key] + b.line)
        else b.(line := b.line + [key])
      case Take =>
        if b.busy.Some? || b.line == [] then b
        else b.(line := b.line[1..], busy := Some((b.line[0], LastFunc(before, b.line[0]).GetOr(0))))
      case Finish(outcome) =>
        if b.busy.None? then b
        else b.(busy := None, done := b.done + [(b.busy.value.0, b.busy.value.1, outcome)])
      case Cancel(_) => b
  }

  function Running(inFlight: Option<(Key, Entry)>): Option<(Key, Func)> {
    if inFlight.Some? then Some((inFlight.value.0, inFlight.value.1.func)) else None
  }

  function Brief(r: Run): seq<(Key, Func, Outcome)> {
    [(r.key, r.func, r.outcome)]
  }

  function Briefs(runs: seq<Run>): seq<(Key, Func, Outcome)> {
    FlatMap((r: Run) => Brief(r), runs)
  }

  /** In every interleaving the queue does what the onlooker expects. In particular each run has
      the newest function of its key at the time it was taken, and its own outcome. */
  lemma {:induction false} WorkerDoesAsWatched(ops: seq<Op>)
    ensures After(ops).queueList == Watched(ops).line
    ensures Running(After(ops).inFlight) == Watched(ops).busy
    ensures Briefs(After(ops).runs) == Watched(ops).done
  {
    if ops != [] {
      var before, op := ops[..|ops| - 1], ops[|ops| - 1];
      var s := After(before);
      WorkerDoesAsWatched(before);
      QueueAgrees(before);
      match op
      case Enqueue(key, _, _, _) =>
        assert InBoth(s.queueList, s.queueMap, key);
      case Take =>
        TakeKeepsQueueInv(s);
        if s.inFlight.None? && s.queueList != [] {
          WaitingFuncIsNewest(before, s.queueList[0]);
        }
      case Finish(outcome) =>
        if s.inFlight.Some? {
          var (key, entry) := s.inFlight.value;
          FlatMapSnoc((r: Run) => Brief(r), s.runs, Run(key, entry.func, entry.futures, outcome));
        }
      case Cancel(_) =>
    }
  }

  /** How a future ends: as cancelled by its owner or by the run that takes it, whatever comes
      first. */
  function EndOf(ops: seq<Op>, f: Future): Option<Ending> {
    if ops == [] then None
    else
      var before, op := ops[..|ops| - 1], ops[|ops| - 1];
      var s := After(before);
      if EndOf(before, f).Some? then EndOf(before, f)
      else if op == Cancel(f) then Some(Cancelled)
      else if op.Finish? && s.inFlight.Some? && f in s.inFlight.value.1.futures then Some(ByRun(|s.runs|))
      else None
  }

  lemma {:induction false} FirstEndCounts(ops: seq<Op>, f: Future)
    ensures EndOf(ops, f) == if f in After(ops).ended then Some(After(ops).ended[f]) else None
  {
    if ops != [] {
      var before, op := ops[..|ops| - 1], ops[|ops| - 1];
      var s := After(before);
      FirstEndCounts(before, f);
      if op.Finish? && s.inFlight.Some? {
        EndEachIs(s.ended, s.inFlight.value.1.futures, |s.runs|, f);
      }
    }
  }
}
