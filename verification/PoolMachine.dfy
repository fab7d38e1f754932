/**
  The worker pool as a transition system.  Any number of workers run the worker loop, any
  number of threads enqueue, and one thread may destroy the pool.  One step is one access to
  shared state: taking the queue mutex, evaluating the wait predicate, blocking on the
  condition variable, a wakeup (notified or spurious), the pop, and so on.

  `notify_one` is a step of its own that happens after the mutex was released, and the stop
  flag is stored without the mutex, as in the program.
*/
module PoolMachine {
  import opened Common
  import opened Counting

  datatype WorkerPc =
    | LoopTop       // about to test the stop flag
    | WantLock      // about to lock the queue mutex
    | Check         // holds the mutex, about to evaluate the wait predicate
    | AboutToBlock  // holds the mutex, predicate was false, about to release it and block
    | Blocked       // waiting on the condition variable
    | Woken         // woken, about to lock the mutex again
    | Ready         // holds the mutex, predicate was true
    | Running(k: nat)  // executes the k-th started task
    | Exited

  datatype EnqPc =
    | Outside
    | WantPush(task: ConnId)
    | Pushing(task: ConnId)  // holds the mutex
    | Notifying              // pushed and released, notify_one still to come

  datatype DtorPc = NotCalled | StopStored | Notified | Joined

  datatype Owner = Free | ByWorker(w: nat) | ByEnq(e: nat)

  datatype Start = Start(worker: nat, task: ConnId)

  /** `enqueued`, `started`, `finished`, `stopMark` and `late` are history: what was pushed, which
      worker popped what, which starts completed, how many tasks had started when stop was
      stored, and which workers were between predicate and wait when notify_all ran. */
  datatype State = State(
    workers: seq<WorkerPc>,
    enqs: seq<EnqPc>,
    dtor: DtorPc,
    owner: Owner,
    stop: bool,
    queue: seq<ConnId>,
    enqueued: seq<ConnId>,
    started: seq<Start>,
    finished: seq<nat>,
    stopMark: nat,
    late: set<nat>)

  datatype Step =
    | CallEnqueue(e: nat, task: ConnId)
    | EnqLock(e: nat)
    | EnqPush(e: nat)
    | EnqNotify(e: nat, w: nat)
    | LoopTest(w: nat)
    | WorkerLock(w: nat)
    | Evaluate(w: nat)
    | Block(w: nat)
    | Spurious(w: nat)
    | Take(w: nat)
    | Finish(w: nat)
    | StoreStop
    | NotifyAll
    | Join

  function Init(workers: nat, enqueuers: nat): (t: State) {
    State(seq(workers, _ => LoopTop), seq(enqueuers, _ => Outside), NotCalled, Free, false,
          [], [], [], [], 0, {})
  }

  predicate Enabled(s: State, st: Step) {
    match st
    case CallEnqueue(e, _) => e < |s.enqs| && s.enqs[e] == Outside
    case EnqLock(e) => e < |s.enqs| && s.enqs[e].WantPush? && s.owner == Free
    case EnqPush(e) => e < |s.enqs| && s.enqs[e].Pushing?
    // notify_one wakes some blocked worker if there is one, and nobody otherwise
    case EnqNotify(e, w) =>
      e < |s.enqs| && s.enqs[e].Notifying? && w <= |s.workers|
      && (if w < |s.workers| then s.workers[w] == Blocked else Blocked !in s.workers)
    case LoopTest(w) => w < |s.workers| && s.workers[w] == LoopTop
    case WorkerLock(w) => w < |s.workers| && (s.workers[w] == WantLock || s.workers[w] == Woken) && s.owner == Free
    case Evaluate(w) => w < |s.workers| && s.workers[w] == Check
    case Block(w) => w < |s.workers| && s.workers[w] == AboutToBlock
    case Spurious(w) => w < |s.workers| && s.workers[w] == Blocked
    // taking the front of an empty queue would be undefined: it is not a step
    case Take(w) => w < |s.workers| && s.workers[w] == Ready && (s.stop || s.queue != [])
    case Finish(w) => w < |s.workers| && s.workers[w].Running?
    case StoreStop => s.dtor == NotCalled
    case NotifyAll => s.dtor == StopStored
    case Join => s.dtor == Notified && forall w :: 0 <= w < |s.workers| ==> s.workers[w] == Exited
  }

  function SetW(s: State, w: nat, pc: WorkerPc): (t: State)
    requires w < |s.workers|
  {
    s.(workers := s.workers[w := pc])
  }

  function SetE(s: State, e: nat, pc: EnqPc): (t: State)
    requires e < |s.enqs|
  {
    s.(enqs := s.enqs[e := pc])
  }

  function WakeAll(ws: seq<WorkerPc>): (r: seq<WorkerPc>) {
    seq(|ws|, i requires 0 <= i < |ws| => if ws[i] == Blocked then Woken else ws[i])
  }

  function Next(s: State, st: Step): (t: State)
    requires Enabled(s, st)
  {
    match st
    case CallEnqueue(e, task) => SetE(s, e, WantPush(task))
    case EnqLock(e) => SetE(s, e, Pushing(s.enqs[e].task)).(owner := ByEnq(e))
    case EnqPush(e) =>
      var task := s.enqs[e].task;
      SetE(s, e, Notifying).(owner := Free, queue := s.queue + [task], enqueued := s.enqueued + [task])
    case EnqNotify(e, w) =>
      var woken := if w < |s.workers| then SetW(s, w, Woken) else s;
      SetE(woken, e, Outside)
    case LoopTest(w) => SetW(s, w, if s.stop then Exited else WantLock)
    case WorkerLock(w) => SetW(s, w, Check).(owner := ByWorker(w))
    case Evaluate(w) => SetW(s, w, if s.stop || s.queue != [] then Ready else AboutToBlock)
    case Block(w) => SetW(s, w, Blocked).(owner := Free)
    case Spurious(w) => SetW(s, w, Woken)
    case Take(w) =>
      if s.stop && s.queue == [] then SetW(s, w, Exited).(owner := Free)
      else
        SetW(s, w, Running(|s.started|)).(
          owner := Free, queue := s.queue[1..], started := s.started + [Start(w, s.queue[0])])
    case Finish(w) => SetW(s, w, LoopTop).(finished := s.finished + [s.workers[w].k])
    case StoreStop => s.(dtor := StopStored, stop := true, stopMark := |s.started|)
    case NotifyAll =>
      s.(dtor := Notified, workers := WakeAll(s.workers),
         late := set w | 0 <= w < |s.workers| && s.workers[w] == AboutToBlock)
    case Join => s.(dtor := Joined)
  }

  /** A run: every step is enabled where it is taken. */
  predicate Legal(s: State, steps: seq<Step>)
    decreases |steps|
  {
    steps == [] || (Enabled(s, steps[0]) && Legal(Next(s, steps[0]), steps[1..]))
  }

  function Exec(s: State, steps: seq<Step>): (t: State)
    requires Legal(s, steps)
    decreases |steps|
  {
    if steps == [] then s else Exec(Next(s, steps[0]), steps[1..])
  }

  // ---------------------------------------------------------------- the invariant

  predicate HoldsMutex(pc: WorkerPc) {
    pc.Check? || pc.AboutToBlock? || pc.Ready?
  }

  /** About to evaluate the wait predicate (again), or past it with the mutex still held. */
  predicate WillRecheck(pc: WorkerPc) {
    pc.WantLock? || pc.Woken? || pc.Check? || pc.Ready?
  }

  predicate WillNotify(pc: EnqPc) {
    pc.Notifying?
  }

  ghost predicate MutexInv(s: State) {
    && (forall w :: 0 <= w < |s.workers| ==> (HoldsMutex(s.workers[w]) <==> s.owner == ByWorker(w)))
    && (forall e :: 0 <= e < |s.enqs| ==> (s.enqs[e].Pushing? <==> s.owner == ByEnq(e)))
    && (s.owner.ByWorker? ==> s.owner.w < |s.workers|)
    && (s.owner.ByEnq? ==> s.owner.e < |s.enqs|)
  }

  /** What a worker's position says about the stop flag and the queue. */
  ghost predicate PositionInv(s: State) {
    && (s.stop <==> s.dtor != NotCalled)
    && (forall w :: 0 <= w < |s.workers| && s.workers[w] == Ready ==> s.stop || s.queue != [])
    && (forall w :: 0 <= w < |s.workers| && s.workers[w] == AboutToBlock ==> s.queue == [])
    && (forall w :: 0 <= w < |s.workers| && s.workers[w] == Exited ==> s.stop)
    && (s.dtor == Joined ==> forall w :: 0 <= w < |s.workers| ==> s.workers[w] == Exited)
  }

  function Tasks(starts: seq<Start>): (r: seq<ConnId>) {
    seq(|starts|, i requires 0 <= i < |starts| => starts[i].task)
  }

  /** FIFO conservation. */
  ghost predicate FifoInv(s: State) {
    s.enqueued == Tasks(s.started) + s.queue
  }

  /** Every started task is running in the worker that took it, or finished once. */
  ghost predicate ExecInv(s: State) {
    RunningInv(s) && StartedInv(s) && FinishedInv(s)
  }

  ghost predicate RunningInv(s: State) {
    forall w :: 0 <= w < |s.workers| && s.workers[w].Running? ==>
      s.workers[w].k < |s.started| && s.started[s.workers[w].k].worker == w
      && s.workers[w].k !in s.finished
  }

  ghost predicate StartedInv(s: State) {
    forall k :: 0 <= k < |s.started| ==>
      s.started[k].worker < |s.workers|
      && (k in s.finished || s.workers[s.started[k].worker] == Running(k))
  }

  ghost predicate FinishedInv(s: State) {
    && (forall i :: 0 <= i < |s.finished| ==> s.finished[i] < |s.started|)
    && (forall i, j :: 0 <= i < j < |s.finished| ==> s.finished[i] != s.finished[j])
  }

  /** No lost wakeup: while a worker sleeps, each queued task has a notify still to come or a
      worker that will look at the queue again. */
  ghost predicate ConservationInv(s: State) {
    !s.stop && Blocked in s.workers ==>
      |s.queue| <= Count(s.enqs, WillNotify) + Count(s.workers, WillRecheck)
  }

  /** After stop was stored, a worker that started a task does not start another. */
  ghost predicate ShutdownInv(s: State) {
    s.stop ==> s.stopMark <= |s.started| && LeavingInv(s) && DistinctInv(s)
  }

  ghost predicate LeavingInv(s: State) {
    forall a :: s.stopMark <= a < |s.started| ==>
      && s.started[a].worker < |s.workers|
      && (var pc := s.workers[s.started[a].worker]; pc == Running(a) || pc == LoopTop || pc == Exited)
  }

  ghost predicate DistinctInv(s: State) {
    forall a, b :: s.stopMark <= a < b < |s.started| ==> s.started[a].worker != s.started[b].worker
  }

  /** After notify_all, only a worker it came too early for can be asleep. */
  ghost predicate LateInv(s: State) {
    && (s.dtor == Notified || s.dtor == Joined ==>
          forall w :: 0 <= w < |s.workers| && (s.workers[w] == Blocked || s.workers[w] == AboutToBlock) ==> w in s.late)
    && (forall v, w :: v in s.late && w in s.late ==> v == w)
  }

  ghost predicate Inv(s: State) {
    MutexInv(s) && PositionInv(s) && FifoInv(s) && ExecInv(s) && ConservationInv(s) && ShutdownInv(s) && LateInv(s)
  }

  lemma InitInv(workers: nat, enqueuers: nat)
    ensures Inv(Init(workers, enqueuers))
  {
  }

  predicate WorkerStep(st: Step) {
    st.LoopTest? || st.WorkerLock? || st.Evaluate? || st.Block? || st.Spurious? || st.Take? || st.Finish?
  }

  lemma MutexStep(s: State, st: Step)
    requires MutexInv(s) && Enabled(s, st)
    ensures MutexInv(Next(s, st))
  {
    if WorkerStep(st) {
      WorkerMutexStep(s, st);
    } else {
      OtherMutexStep(s, st);
    }
  }

  lemma WorkerMutexStep(s: State, st: Step)
    requires MutexInv(s) && Enabled(s, st) && WorkerStep(st)
    ensures MutexInv(Next(s, st))
  {
  }

  lemma OtherMutexStep(s: State, st: Step)
    requires MutexInv(s) && Enabled(s, st) && !WorkerStep(st)
    ensures MutexInv(Next(s, st))
  {
  }

  lemma PositionStep(s: State, st: Step)
    requires MutexInv(s) && PositionInv(s) && Enabled(s, st)
    ensures PositionInv(Next(s, st))
  {
    if WorkerStep(st) {
      WorkerPositionStep(s, st);
    } else {
      OtherPositionStep(s, st);
    }
  }

  lemma WorkerPositionStep(s: State, st: Step)
    requires MutexInv(s) && PositionInv(s) && Enabled(s, st) && WorkerStep(st)
    ensures PositionInv(Next(s, st))
  {
  }

  lemma OtherPositionStep(s: State, st: Step)
    requires MutexInv(s) && PositionInv(s) && Enabled(s, st) && !WorkerStep(st)
    ensures PositionInv(Next(s, st))
  {
  }

  lemma FifoStep(s: State, st: Step)
    requires FifoInv(s) && Enabled(s, st)
    ensures FifoInv(Next(s, st))
  {
    if st.Take? && s.queue != [] {
      assert s.queue == [s.queue[0]] + s.queue[1..];
    }
  }

  lemma RunningStep(s: State, st: Step)
    requires RunningInv(s) && StartedInv(s) && FinishedInv(s) && Enabled(s, st)
    ensures RunningInv(Next(s, st))
  {
    if st.Take? || st.Finish? {
      RunningMoves(s, st);
    } else {
      assert Next(s, st).started == s.started && Next(s, st).finished == s.finished;
    }
  }

  lemma RunningMoves(s: State, st: Step)
    requires RunningInv(s) && StartedInv(s) && FinishedInv(s) && Enabled(s, st) && (st.Take? || st.Finish?)
    ensures RunningInv(Next(s, st))
  {
  }

  lemma StartedStep(s: State, st: Step)
    requires RunningInv(s) && StartedInv(s) && Enabled(s, st)
    ensures StartedInv(Next(s, st))
  {
    if st.Finish? {
      var f := Next(s, st).finished;
      assert f[|s.finished|] == s.workers[st.w].k;
      assert forall k :: k in s.finished ==> k in f;
    }
  }

  lemma FinishedStep(s: State, st: Step)
    requires RunningInv(s) && FinishedInv(s) && Enabled(s, st)
    ensures FinishedInv(Next(s, st))
  {
  }

  lemma LeavingStep(s: State, st: Step)
    requires RunningInv(s) && s.stop && LeavingInv(s) && Enabled(s, st)
    ensures LeavingInv(Next(s, st))
  {
  }

  lemma DistinctStep(s: State, st: Step)
    requires s.stop && s.stopMark <= |s.started| && LeavingInv(s) && DistinctInv(s) && Enabled(s, st)
    ensures DistinctInv(Next(s, st))
  {
  }

  lemma ShutdownStep(s: State, st: Step)
    requires PositionInv(s) && RunningInv(s) && ShutdownInv(s) && Enabled(s, st)
    ensures ShutdownInv(Next(s, st))
  {
    if s.stop {
      LeavingStep(s, st);
      DistinctStep(s, st);
    }
  }

  lemma LateStep(s: State, st: Step)
    requires MutexInv(s) && PositionInv(s) && LateInv(s) && Enabled(s, st)
    ensures LateInv(Next(s, st))
  {
  }

  lemma NotifyConserves(s: State, e: nat, w: nat)
    requires ConservationInv(s) && Enabled(s, EnqNotify(e, w))
    ensures ConservationInv(Next(s, EnqNotify(e, w)))
  {
    var t := Next(s, EnqNotify(e, w));
    CountUpdate(s.enqs, e, t.enqs[e], WillNotify);
    if w < |s.workers| {
      CountUpdate(s.workers, w, t.workers[w], WillRecheck);
      assert s.workers[w] in s.workers;
    }
  }

  lemma WorkerConserves(s: State, st: Step)
    requires MutexInv(s) && PositionInv(s) && ConservationInv(s) && Enabled(s, st)
    requires WorkerStep(st)
    ensures ConservationInv(Next(s, st))
  {
    var t := Next(s, st);
    CountUpdate(s.workers, st.w, t.workers[st.w], WillRecheck);
    assert forall i :: 0 <= i < |s.workers| && i != st.w ==> t.workers[i] == s.workers[i];
  }

  lemma ConservationStep(s: State, st: Step)
    requires MutexInv(s) && PositionInv(s) && ConservationInv(s) && Enabled(s, st)
    ensures ConservationInv(Next(s, st))
  {
    var t := Next(s, st);
    match st
    case CallEnqueue(e, task) => CountUpdate(s.enqs, e, t.enqs[e], WillNotify);
    case EnqLock(e) => CountUpdate(s.enqs, e, t.enqs[e], WillNotify);
    case EnqPush(e) => CountUpdate(s.enqs, e, t.enqs[e], WillNotify);
    case EnqNotify(e, w) => NotifyConserves(s, e, w);
    case StoreStop =>
    case NotifyAll =>
    case Join =>
    case _ => WorkerConserves(s, st);
  }

  lemma InvStep(s: State, st: Step)
    requires Inv(s) && Enabled(s, st)
    ensures Inv(Next(s, st))
  {
    MutexStep(s, st);
    PositionStep(s, st);
    FifoStep(s, st);
    RunningStep(s, st);
    StartedStep(s, st);
    FinishedStep(s, st);
    ConservationStep(s, st);
    ShutdownStep(s, st);
    LateStep(s, st);
  }

  lemma {:induction false} InvRun(s: State, steps: seq<Step>)
    requires Inv(s) && Legal(s, steps)
    ensures var t := Exec(s, steps);
            Inv(t) && |t.workers| == |s.workers| && |t.enqs| == |s.enqs|
    decreases |steps|
  {
    if steps == [] {
    } else {
      InvStep(s, steps[0]);
      InvRun(Next(s, steps[0]), steps[1..]);
    }
  }

  /** `s` is the state after some run of a pool with that many workers and enqueuing threads. */
  ghost predicate Reachable(workers: nat, enqueuers: nat, s: State) {
    exists steps :: Legal(Init(workers, enqueuers), steps) && Exec(Init(workers, enqueuers), steps) == s
  }

  lemma ReachableInv(workers: nat, enqueuers: nat, s: State)
    requires Reachable(workers, enqueuers, s)
    ensures Inv(s) && |s.workers| == workers && |s.enqs| == enqueuers
  {
    var steps :| Legal(Init(workers, enqueuers), steps) && Exec(Init(workers, enqueuers), steps) == s;
    InitInv(workers, enqueuers);
    InvRun(Init(workers, enqueuers), steps);
  }

  /** A run can be prolonged by any enabled step. */
  lemma Extend(workers: nat, enqueuers: nat, s: State, st: Step)
    requires Reachable(workers, enqueuers, s) && Enabled(s, st)
    ensures Reachable(workers, enqueuers, Next(s, st))
  {
    var steps :| Legal(Init(workers, enqueuers), steps) && Exec(Init(workers, enqueuers), steps) == s;
    Append(Init(workers, enqueuers), steps, st);
  }

  lemma {:induction false} Append(s: State, steps: seq<Step>, st: Step)
    requires Legal(s, steps) && Enabled(Exec(s, steps), st)
    ensures Legal(s, steps + [st]) && Exec(s, steps + [st]) == Next(Exec(s, steps), st)
    decreases |steps|
  {
    if steps == [] {
      assert [st][1..] == [];
    } else {
      Append(Next(s, steps[0]), steps[1..], st);
      assert (steps + [st])[1..] == steps[1..] + [st];
    }
  }

  lemma InitReachable(workers: nat, enqueuers: nat)
    ensures Reachable(workers, enqueuers, Init(workers, enqueuers))
  {
    assert Legal(Init(workers, enqueuers), []) && Exec(Init(workers, enqueuers), []) == Init(workers, enqueuers);
  }
}
