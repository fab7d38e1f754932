/** What every run of the worker pool keeps, for any number of workers and enqueuing threads. */
module PoolTheorems {
  import opened Counting
  import opened PoolMachine

  /** First in, first out: nothing is lost, duplicated or reordered between push and pop. */
  lemma FifoConservation(workers: nat, enqueuers: nat, s: State)
    requires Reachable(workers, enqueuers, s)
    ensures s.enqueued == Tasks(s.started) + s.queue
  {
    ReachableInv(workers, enqueuers, s);
  }

  ghost predicate RunsIn(s: State, w: nat, k: nat) {
    w < |s.workers| && s.workers[w] == Running(k)
  }

  /** Each started task is either running, in one worker only, or finished, once only. */
  lemma ExecutedOnce(workers: nat, enqueuers: nat, s: State, k: nat)
    requires Reachable(workers, enqueuers, s) && k < |s.started|
    ensures k in s.finished <==> !exists w :: RunsIn(s, w, k)
    ensures forall v, w :: RunsIn(s, v, k) && RunsIn(s, w, k) ==> v == w
    ensures forall i, j :: 0 <= i < j < |s.finished| && s.finished[i] == k ==> s.finished[j] != k
  {
    ReachableInv(workers, enqueuers, s);
    if k !in s.finished {
      assert RunsIn(s, s.started[k].worker, k);
    }
  }

  /** Although notify_one is issued outside the mutex, no queued task is stranded behind
      sleeping workers. */
  lemma NoLostWakeup(workers: nat, enqueuers: nat, s: State)
    requires Reachable(workers, enqueuers, s)
    ensures !s.stop && Blocked in s.workers ==>
              |s.queue| <= Count(s.enqs, WillNotify) + Count(s.workers, WillRecheck)
  {
    ReachableInv(workers, enqueuers, s);
  }

  /** Steps the pool takes by itself: not a new call, not a destructor call, and not a wakeup
      that nobody may count on. */
  predicate OwnStep(st: Step) {
    !st.CallEnqueue? && !st.StoreStop? && !st.Spurious?
  }

  ghost predicate CanMove(s: State) {
    exists st :: OwnStep(st) && Enabled(s, st)
  }

  /** Who holds the mutex can always go on. */
  lemma HolderMoves(s: State)
    requires Inv(s) && s.owner != Free
    ensures CanMove(s)
  {
    match s.owner
    case ByEnq(e) => assert Enabled(s, EnqPush(e));
    case ByWorker(w) =>
      match s.workers[w]
      case Check => assert Enabled(s, Evaluate(w));
      case AboutToBlock => assert Enabled(s, Block(w));
      case Ready => assert Enabled(s, Take(w));
  }

  lemma WorkerMoves(s: State, w: nat)
    requires Inv(s) && w < |s.workers| && s.workers[w] != Blocked && s.workers[w] != Exited
    ensures CanMove(s)
  {
    if s.owner != Free {
      HolderMoves(s);
    } else {
      match s.workers[w]
      case LoopTop => assert Enabled(s, LoopTest(w));
      case WantLock => assert Enabled(s, WorkerLock(w));
      case Woken => assert Enabled(s, WorkerLock(w));
      case Running(k) => assert Enabled(s, Finish(w));
    }
  }

  lemma EnqueuerMoves(s: State, e: nat)
    requires Inv(s) && e < |s.enqs| && s.enqs[e] != Outside
    ensures CanMove(s)
  {
    if s.owner != Free {
      HolderMoves(s);
    } else if s.enqs[e].WantPush? {
      assert Enabled(s, EnqLock(e));
    } else if Blocked in s.workers {
      var w :| 0 <= w < |s.workers| && s.workers[w] == Blocked;
      assert Enabled(s, EnqNotify(e, w));
    } else {
      assert Enabled(s, EnqNotify(e, |s.workers|));
    }
  }

  /** With at least one worker, a non-empty queue never leaves the pool at rest before stop. */
  lemma QueuedWorkMoves(workers: nat, enqueuers: nat, s: State)
    requires workers > 0 && Reachable(workers, enqueuers, s)
    ensures !s.stop && s.queue != [] ==> CanMove(s)
  {
    ReachableInv(workers, enqueuers, s);
    if !s.stop && s.queue != [] {
      QuietPoolIsEmpty(s);
    }
  }

  /** If nothing in the pool can move before stop, its queue is empty and all workers sleep. */
  lemma QuietPoolIsEmpty(s: State)
    requires Inv(s) && !s.stop && |s.workers| > 0
    ensures !CanMove(s) ==>
              && s.queue == []
              && (forall w :: 0 <= w < |s.workers| ==> s.workers[w] == Blocked)
              && (forall e :: 0 <= e < |s.enqs| ==> s.enqs[e] == Outside)
  {
    if !CanMove(s) {
      forall w | 0 <= w < |s.workers| ensures s.workers[w] == Blocked {
        if s.workers[w] != Blocked { WorkerMoves(s, w); }
      }
      forall e | 0 <= e < |s.enqs| ensures s.enqs[e] == Outside {
        if s.enqs[e] != Outside { EnqueuerMoves(s, e); }
      }
      assert s.workers[0] == Blocked;
      CountZero(s.enqs, WillNotify);
      CountZero(s.workers, WillRecheck);
    }
  }

  /** Once stop is stored, no worker starts two more tasks, so at most one per worker starts. */
  lemma BoundedShutdown(workers: nat, enqueuers: nat, s: State)
    requires Reachable(workers, enqueuers, s) && s.stop
    ensures s.stopMark <= |s.started| <= s.stopMark + workers
    ensures forall a, b :: s.stopMark <= a < b < |s.started| ==> s.started[a].worker != s.started[b].worker
  {
    ReachableInv(workers, enqueuers, s);
    DistinctStarters(s.started[s.stopMark..], workers);
  }

  lemma DistinctStarters(starts: seq<Start>, workers: nat)
    requires forall i :: 0 <= i < |starts| ==> starts[i].worker < workers
    requires forall i, j :: 0 <= i < j < |starts| ==> starts[i].worker != starts[j].worker
    ensures |starts| <= workers
  {
    var ws: seq<nat> := seq(|starts|, i requires 0 <= i < |starts| => starts[i].worker);
    Pigeonhole(ws, workers);
  }

  lemma {:induction false} StopMarkFixed(s: State, steps: seq<Step>)
    requires Legal(s, steps)
    ensures var t := Exec(s, steps);
            && (s.dtor != NotCalled ==> t.dtor != NotCalled && t.stopMark == s.stopMark)
            && s.started <= t.started
    decreases |steps|
  {
    if steps == [] {
    } else {
      StopMarkFixed(Next(s, steps[0]), steps[1..]);
    }
  }

  /** `stopMark` is what it says: step `i` of the run stored stop, and so many tasks had started. */
  lemma {:induction false} StopMarkIs(s: State, steps: seq<Step>) returns (i: nat)
    requires Legal(s, steps) && s.dtor == NotCalled && Exec(s, steps).dtor != NotCalled
    ensures i < |steps| && steps[i] == StoreStop && Legal(s, steps[..i])
    ensures Exec(s, steps).stopMark == |Exec(s, steps[..i]).started|
    decreases |steps|
  {
    var t := Next(s, steps[0]);
    if steps[0] == StoreStop {
      i := 0;
      StopMarkFixed(t, steps[1..]);
    } else {
      var j := StopMarkIs(t, steps[1..]);
      i := j + 1;
      assert steps[..i][0] == steps[0] && steps[..i][1..] == steps[1..][..j];
    }
  }

  /** When all workers are gone, the finished tasks are exactly a prefix of what was enqueued. */
  lemma FinishedIsPrefix(workers: nat, enqueuers: nat, s: State)
    requires Reachable(workers, enqueuers, s)
    requires forall w :: 0 <= w < |s.workers| ==> s.workers[w] == Exited
    ensures forall k :: 0 <= k < |s.started| <==> k in s.finished
    ensures Tasks(s.started) <= s.enqueued
  {
    ReachableInv(workers, enqueuers, s);
    forall k | k in s.finished ensures 0 <= k < |s.started| {
      var i :| 0 <= i < |s.finished| && s.finished[i] == k;
    }
  }

  // ---------------------------------------------------------------- the destructor

  /** The destructor waits, and neither the pool nor a running call can make a further step. */
  ghost predicate Hangs(s: State) {
    s.dtor == Notified && !CanMove(s)
  }

  /** The destructor hangs exactly when every call is out, and one worker sleeps while all the
      others have left; that worker is the one notify_all came too early for. */
  lemma HangsIff(workers: nat, enqueuers: nat, s: State)
    requires Reachable(workers, enqueuers, s) && s.dtor == Notified
    ensures Hangs(s) <==>
              && (forall e :: 0 <= e < |s.enqs| ==> s.enqs[e] == Outside)
              && exists w :: 0 <= w < |s.workers| && OnlySleeper(s, w)
    ensures Hangs(s) ==> exists w :: s.late == {w} && 0 <= w < |s.workers| && OnlySleeper(s, w)
  {
    ReachableInv(workers, enqueuers, s);
    if !CanMove(s) {
      SleeperOfHang(s);
    } else if w :| 0 <= w < |s.workers| && OnlySleeper(s, w) {
      var st :| OwnStep(st) && Enabled(s, st);
      OnlySleeperStops(s, w, st);
    }
  }

  /** Next to a lone sleeper only calls still under way can move. */
  lemma OnlySleeperStops(s: State, w: nat, st: Step)
    requires w < |s.workers| && OnlySleeper(s, w) && s.dtor == Notified
    requires OwnStep(st) && Enabled(s, st)
    ensures exists e :: 0 <= e < |s.enqs| && s.enqs[e] != Outside
  {
    assert s.workers[w] != Exited;
  }

  ghost predicate OnlySleeper(s: State, w: nat)
    requires w < |s.workers|
  {
    s.workers[w] == Blocked && forall v :: 0 <= v < |s.workers| && v != w ==> s.workers[v] == Exited
  }

  lemma SleeperOfHang(s: State)
    requires Inv(s) && s.dtor == Notified && !CanMove(s)
    ensures forall e :: 0 <= e < |s.enqs| ==> s.enqs[e] == Outside
    ensures exists w :: s.late == {w} && 0 <= w < |s.workers| && OnlySleeper(s, w)
  {
    forall e | 0 <= e < |s.enqs| ensures s.enqs[e] == Outside {
      if s.enqs[e] != Outside { EnqueuerMoves(s, e); }
    }
    forall w | 0 <= w < |s.workers| ensures s.workers[w] == Blocked || s.workers[w] == Exited {
      if s.workers[w] != Blocked && s.workers[w] != Exited { WorkerMoves(s, w); }
    }
    if forall w :: 0 <= w < |s.workers| ==> s.workers[w] == Exited {
      assert Enabled(s, Join);
    }
    var w :| 0 <= w < |s.workers| && s.workers[w] == Blocked;
    assert w in s.late;
    assert s.late == {w};
    assert OnlySleeper(s, w);
  }

  // After notify_all: how long the pool can still go on, and where it ends.

  function ShutdownWeight(pc: WorkerPc): (n: nat) {
    match pc
    case Exited => 0
    case Blocked => 0
    case AboutToBlock => 1
    case LoopTop => 1
    case Running(_) => 2
    case Ready => 3
    case Check => 4
    case WantLock => 5
    case Woken => 5
  }

  function CallWeight(pc: EnqPc): (n: nat) {
    match pc
    case Outside => 0
    case Notifying => 6
    case Pushing(_) => 7
    case WantPush(_) => 8
  }

  /** Bounds what is left to do once notify_all has been called. */
  ghost function ShutdownMeasure(s: State): (n: nat) {
    Sum(s.workers, ShutdownWeight) + Sum(s.enqs, CallWeight) + if s.dtor == Joined then 0 else 1
  }

  predicate PastNotify(s: State) {
    s.dtor == Notified || s.dtor == Joined
  }

  lemma CallShrinks(s: State, st: Step)
    requires Enabled(s, st) && (st.EnqLock? || st.EnqPush? || st.EnqNotify?)
    ensures ShutdownMeasure(Next(s, st)) < ShutdownMeasure(s)
  {
    var t := Next(s, st);
    SumUpdate(s.enqs, st.e, t.enqs[st.e], CallWeight);
    if st.EnqNotify? && st.w < |s.workers| {
      SumUpdate(s.workers, st.w, t.workers[st.w], ShutdownWeight);
    }
  }

  lemma WorkerShrinks(s: State, st: Step)
    requires s.stop && Enabled(s, st)
    requires st.LoopTest? || st.WorkerLock? || st.Evaluate? || st.Block? || st.Take? || st.Finish?
    ensures ShutdownMeasure(Next(s, st)) < ShutdownMeasure(s)
  {
    var t := Next(s, st);
    assert t.enqs == s.enqs && t.dtor == s.dtor;
    SumUpdate(s.workers, st.w, t.workers[st.w], ShutdownWeight);
  }

  lemma ShutdownShrinks(s: State, st: Step)
    requires Inv(s) && PastNotify(s) && OwnStep(st) && Enabled(s, st)
    ensures ShutdownMeasure(Next(s, st)) < ShutdownMeasure(s) && PastNotify(Next(s, st))
  {
    match st
    case EnqLock(_) => CallShrinks(s, st);
    case EnqPush(_) => CallShrinks(s, st);
    case EnqNotify(_, _) => CallShrinks(s, st);
    case Join =>
    case _ => WorkerShrinks(s, st);
  }

  /** A run in which the pool and the calls under way go on by themselves. */
  ghost predicate OwnRun(s: State, steps: seq<Step>) {
    Legal(s, steps) && forall i :: 0 <= i < |steps| ==> OwnStep(steps[i])
  }

  /** After notify_all the pool goes on for at most so many steps. */
  lemma {:induction false} ShutdownBounded(s: State, steps: seq<Step>)
    requires Inv(s) && PastNotify(s) && OwnRun(s, steps)
    ensures |steps| + ShutdownMeasure(Exec(s, steps)) <= ShutdownMeasure(s)
    decreases |steps|
  {
    if steps == [] {
    } else {
      InvStep(s, steps[0]);
      ShutdownShrinks(s, steps[0]);
      ShutdownBounded(Next(s, steps[0]), steps[1..]);
    }
  }

  predicate Sleeping(pc: WorkerPc) {
    pc == Blocked || pc == AboutToBlock
  }

  ghost predicate SomeSleeper(s: State) {
    exists w :: 0 <= w < |s.workers| && Sleeping(s.workers[w])
  }

  ghost predicate SomeCall(s: State) {
    exists e :: 0 <= e < |s.enqs| && s.enqs[e] != Outside
  }

  ghost predicate SomeCallBeforePush(s: State) {
    exists e :: 0 <= e < |s.enqs| && s.enqs[e].WantPush?
  }

  /** Nobody sleeps or is about to; or a call under way is sure to notify the sleeper: any call
      if it sleeps already, and one that still has to take the mutex if it is about to. */
  ghost predicate WillBeJoined(s: State) {
    !SomeSleeper(s) || SomeCallBeforePush(s) || (Blocked in s.workers && SomeCall(s))
  }

  lemma JoinedStays(s: State, st: Step)
    requires Inv(s) && PastNotify(s) && WillBeJoined(s) && OwnStep(st) && Enabled(s, st)
    ensures WillBeJoined(Next(s, st))
  {
    var t := Next(s, st);
    if !SomeSleeper(s) {
      assert !SomeSleeper(t);
    } else if st.EnqNotify? {
      NotifyWakesSleeper(s, st);
    } else if st.EnqLock? || st.EnqPush? {
      LockedCallStays(s, st);
    } else {
      assert t.enqs == s.enqs;
      assert SomeCallBeforePush(s) ==> SomeCallBeforePush(t);
      if !SomeCallBeforePush(s) {
        var w :| 0 <= w < |s.workers| && s.workers[w] == Blocked;
        assert t.workers[w] == Blocked && SomeCall(t);
      }
    }
  }

  /** After notify_all only one worker can be asleep, so a notify finds no other. */
  lemma NotifyWakesSleeper(s: State, st: Step)
    requires Inv(s) && PastNotify(s) && WillBeJoined(s) && SomeSleeper(s) && st.EnqNotify? && Enabled(s, st)
    ensures WillBeJoined(Next(s, st))
  {
    var t := Next(s, st);
    if st.w < |s.workers| {
      assert st.w in s.late;
      assert forall v :: 0 <= v < |s.workers| && v != st.w ==> !Sleeping(s.workers[v]);
    } else {
      var e :| 0 <= e < |s.enqs| && s.enqs[e].WantPush?;
      assert t.enqs[e].WantPush?;
    }
  }

  /** A call that has the mutex, or gives it back, faces a worker that sleeps already. */
  lemma LockedCallStays(s: State, st: Step)
    requires Inv(s) && WillBeJoined(s) && SomeSleeper(s) && (st.EnqLock? || st.EnqPush?) && Enabled(s, st)
    ensures WillBeJoined(Next(s, st))
  {
    var t := Next(s, st);
    var w :| 0 <= w < |s.workers| && Sleeping(s.workers[w]);
    assert s.workers[w] == Blocked && t.workers[w] == Blocked;
    assert t.enqs[st.e] != Outside;
  }

  /** The end of a run that could not hang is the end of the destructor. */
  lemma {:induction false} JoinedInTheEnd(s: State, steps: seq<Step>)
    requires Inv(s) && PastNotify(s) && WillBeJoined(s) && OwnRun(s, steps) && !CanMove(Exec(s, steps))
    ensures Exec(s, steps).dtor == Joined
    decreases |steps|
  {
    if steps == [] {
      if s.dtor == Notified {
        SleeperOfHang(s);
      }
    } else {
      InvStep(s, steps[0]);
      ShutdownShrinks(s, steps[0]);
      JoinedStays(s, steps[0]);
      JoinedInTheEnd(Next(s, steps[0]), steps[1..]);
    }
  }

  /** Where waking is not certain, some run ends with the destructor still waiting. */
  lemma HangingRun(s: State) returns (steps: seq<Step>)
    requires Inv(s) && s.dtor == Notified && !WillBeJoined(s)
    ensures OwnRun(s, steps) && !CanMove(Exec(s, steps)) && Exec(s, steps).dtor == Notified
    decreases ShutdownMeasure(s)
  {
    if !CanMove(s) {
      return [];
    }
    var st := UselessStep(s);
    InvStep(s, st);
    ShutdownShrinks(s, st);
    var rest := HangingRun(Next(s, st));
    steps := [st] + rest;
    assert steps[1..] == rest;
  }

  /** Without calls nobody wakes a sleeper, so nobody joins it. */
  lemma SleeperSleepsOn(s: State, w: nat, st: Step)
    requires s.dtor == Notified && !SomeCall(s) && OwnStep(st) && Enabled(s, st)
    requires w < |s.workers| && Sleeping(s.workers[w])
    ensures var t := Next(s, st);
            t.dtor == Notified && t.enqs == s.enqs && w < |t.workers| && Sleeping(t.workers[w])
  {
    assert s.workers[w] != Exited;
  }

  /** A step that wakes nobody: a notify while nobody sleeps yet, or any step without calls. */
  lemma UselessStep(s: State) returns (st: Step)
    requires Inv(s) && s.dtor == Notified && !WillBeJoined(s) && CanMove(s)
    ensures OwnStep(st) && Enabled(s, st) && Next(s, st).dtor == Notified && !WillBeJoined(Next(s, st))
  {
    var w :| 0 <= w < |s.workers| && Sleeping(s.workers[w]);
    if SomeCall(s) {
      var e :| 0 <= e < |s.enqs| && s.enqs[e] != Outside;
      assert s.workers[w] == AboutToBlock;
      st := EnqNotify(e, |s.workers|);
      assert Next(s, st).workers == s.workers;
    } else {
      st :| OwnStep(st) && Enabled(s, st);
      SleeperSleepsOn(s, w, st);
      assert Blocked in Next(s, st).workers ==> !SomeCall(Next(s, st));
    }
  }

  /**
    When the destructor finishes: from notify_all on, every run of the pool and the calls under way
    ends, and all of them end with the workers joined if and only if nobody sleeps or is about
    to, or a call under way is sure to wake who does.
  */
  lemma DestructorFinishesIff(workers: nat, enqueuers: nat, s: State)
    requires Reachable(workers, enqueuers, s) && s.dtor == Notified
    ensures forall steps :: OwnRun(s, steps) ==> |steps| <= ShutdownMeasure(s)
    ensures WillBeJoined(s) <==>
              forall steps :: OwnRun(s, steps) && !CanMove(Exec(s, steps)) ==> Exec(s, steps).dtor == Joined
  {
    ReachableInv(workers, enqueuers, s);
    forall steps | OwnRun(s, steps) ensures |steps| <= ShutdownMeasure(s) {
      ShutdownBounded(s, steps);
    }
    if WillBeJoined(s) {
      forall steps | OwnRun(s, steps) && !CanMove(Exec(s, steps)) ensures Exec(s, steps).dtor == Joined {
        JoinedInTheEnd(s, steps);
      }
    } else {
      var steps := HangingRun(s);
    }
  }

  /** Without calls under way chance plays no part: whatever run is taken, the destructor finishes
      if and only if no worker slept or was about to. */
  lemma FinishesWithoutCalls(workers: nat, enqueuers: nat, s: State, steps: seq<Step>)
    requires Reachable(workers, enqueuers, s) && s.dtor == Notified && !SomeCall(s)
    requires OwnRun(s, steps) && !CanMove(Exec(s, steps))
    ensures Exec(s, steps).dtor == Joined <==> !SomeSleeper(s)
  {
    ReachableInv(workers, enqueuers, s);
    if SomeSleeper(s) {
      SleeperStays(s, steps);
    } else {
      JoinedInTheEnd(s, steps);
    }
  }

  lemma {:induction false} SleeperStays(s: State, steps: seq<Step>)
    requires s.dtor == Notified && !SomeCall(s) && SomeSleeper(s) && OwnRun(s, steps)
    ensures Exec(s, steps).dtor == Notified
    decreases |steps|
  {
    if steps == [] {
    } else {
      var w :| 0 <= w < |s.workers| && Sleeping(s.workers[w]);
      SleeperSleepsOn(s, w, steps[0]);
      SleeperStays(Next(s, steps[0]), steps[1..]);
    }
  }

  /** It is decided when notify_all is called: what matters is a worker between predicate and
      wait, and a call that still has to take the mutex. */
  lemma NotifyDecides(workers: nat, enqueuers: nat, s: State)
    requires Reachable(workers, enqueuers, s) && s.dtor == StopStored
    ensures WillBeJoined(Next(s, NotifyAll)) <==> AboutToBlock !in s.workers || SomeCallBeforePush(s)
  {
    var t := Next(s, NotifyAll);
    assert Blocked !in t.workers;
    if AboutToBlock in s.workers {
      var w :| 0 <= w < |s.workers| && s.workers[w] == AboutToBlock;
      assert Sleeping(t.workers[w]);
    }
  }

  lemma AboutToWait() returns (s: State)
    ensures Reachable(1, 0, s) && s == Init(1, 0).(workers := [AboutToBlock], owner := ByWorker(0))
  {
    InitReachable(1, 0);
    s := Init(1, 0);
    Extend(1, 0, s, LoopTest(0));
    s := Next(s, LoopTest(0));
    Extend(1, 0, s, WorkerLock(0));
    s := Next(s, WorkerLock(0));
    Extend(1, 0, s, Evaluate(0));
    s := Next(s, Evaluate(0));
  }

  /** The hang is real: stop and notify_all fall between a worker's predicate and its wait. */
  lemma DestructorCanHang() returns (s: State)
    ensures Reachable(1, 0, s) && Hangs(s)
  {
    s := AboutToWait();
    Extend(1, 0, s, StoreStop);
    s := Next(s, StoreStop);
    Extend(1, 0, s, NotifyAll);
    s := Next(s, NotifyAll);
    Extend(1, 0, s, Block(0));
    s := Next(s, Block(0));
    assert OnlySleeper(s, 0);
    HangsIff(1, 0, s);
  }
}
