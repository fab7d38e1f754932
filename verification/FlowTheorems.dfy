/** No stalled bytes, and everything that arrived is read in the end. */
module FlowTheorems {
  import opened Common
  import opened Counting
  import P = PoolMachine
  import PT = PoolTheorems
  import opened FlowMachine
  import opened FlowInvariant

  /** In every reachable state, bytes of a registered connection beyond what its current reader
      will still take have a pending edge, a batch entry, a poller about to enqueue, a queued
      task, or a worker that has not taken its FIONREAD snapshot yet, if this connection has not
      hung up and no read of it has failed, whatever happens to the others. */
  lemma NoStalledBytes(workers: nat, pollers: nat, s: State, c: ConnId)
    requires Reachable(workers, pollers, s) && c < |s.conns| && s.conns[c].home.Some? && Healthy(s.conns[c])
    ensures s.conns[c].unread > Claimed(s, c) ==> WillBeRead(s, c)
  {
    ReachableInv(workers, pollers, s);
  }

  /** A reader under the socket mutex finds the bytes of its snapshot, so it never would block,
      unless the connection has been closed meanwhile. */
  lemma SnapshotIsKept(workers: nat, pollers: nat, s: State, w: nat)
    requires Reachable(workers, pollers, s) && w < |s.stages| && s.stages[w].Reading?
    ensures s.stages[w].conn < |s.conns| && s.conns[s.stages[w].conn].holder == Some(w)
    ensures !s.conns[s.stages[w].conn].closed ==>
              s.stages[w].left <= s.conns[s.stages[w].conn].unread && !Enabled(s, WouldBlock(w))
  {
    ReachableInv(workers, pollers, s);
    KeptFacts(s, w);
  }

  lemma KeptFacts(s: State, w: nat)
    requires StageInv(s) && SocketInv(s) && w < |s.stages| && s.stages[w].Reading?
    ensures s.stages[w].conn < |s.conns| && s.conns[s.stages[w].conn].holder == Some(w)
    ensures !s.conns[s.stages[w].conn].closed ==>
              s.stages[w].left <= s.conns[s.stages[w].conn].unread && !Enabled(s, WouldBlock(w))
  {
    assert HoldsSocket(s.stages[w], s.stages[w].conn);
  }

  // ---------------------------------------------------------------- at rest

  /** Steps the server takes by itself: no arrival or hang-up, no interrupt or failing read, no
      spurious wakeup, and no acceptance, which needs an event of its own on the listener. */
  predicate OwnStep(st: Step) {
    !st.Arrive? && !st.HangUp? && !st.Register? && !st.SpuriousWake? && !st.Interrupt? && !st.ReadFail?
  }

  ghost predicate CanMove(s: State) {
    exists st :: OwnStep(st) && Enabled(s, st)
  }

  lemma StageMoves(s: State, w: nat)
    requires Inv(s) && w < |s.stages| && s.stages[w] != NoTask
    ensures CanMove(s)
  {
    match s.stages[w]
    case Test1(_) => StageGoesOn(s, w);
    case Test2(_) => StageGoesOn(s, w);
    case Test3(_) => StageGoesOn(s, w);
    case Peek(_) => StageGoesOn(s, w);
    case WantSocket(_) => WaiterMoves(s, w);
    case Returned => StageGoesOn(s, w);
    case _ => HolderMoves(s, w);
  }

  lemma StageGoesOn(s: State, w: nat)
    requires PoolInv(s) && StageInv(s) && w < |s.stages|
    requires s.stages[w].Test1? || s.stages[w].Test2? || s.stages[w].Test3? || s.stages[w].Peek? || s.stages[w].Returned?
    ensures CanMove(s)
  {
    if s.stages[w].Peek? {
      assert Enabled(s, PeekSize(w));
    } else if s.stages[w].Returned? {
      assert Enabled(s, Finish(w));
    } else {
      assert Enabled(s, Test(w));
    }
  }

  lemma WaiterMoves(s: State, w: nat)
    requires Inv(s) && w < |s.stages| && s.stages[w].WantSocket?
    ensures CanMove(s)
  {
    var c := s.stages[w].conn;
    match s.conns[c].holder
    case None => assert Enabled(s, LockSocket(w));
    case Some(v) =>
      assert HoldsSocket(s.stages[v], c);
      HolderMoves(s, v);
  }

  lemma HolderMoves(s: State, w: nat)
    requires Inv(s) && w < |s.stages| && (s.stages[w].Snapshot? || s.stages[w].Reading? || s.stages[w].Release?)
    ensures CanMove(s)
  {
    assert InStage(s, w);
    match s.stages[w]
    case Snapshot(c) => assert Enabled(s, TakeSnapshot(w));
    case Reading(c, left) => ReaderMoves(s, w);
    case Release(c) => assert Enabled(s, UnlockSocket(w));
  }

  lemma ReaderMoves(s: State, w: nat)
    requires InStage(s, w) && s.stages[w].Reading?
    ensures CanMove(s)
  {
    if s.stages[w].left == 0 {
      assert Enabled(s, EndRead(w));
    } else if ConnOf(s, w).unread > 0 {
      assert Enabled(s, Read(w, 1));
    } else {
      assert Enabled(s, WouldBlock(w));
    }
  }

  /** A step of the pool underneath is a step of the server. */
  lemma PoolMoves(s: State)
    requires Inv(s) && PT.CanMove(s.pool)
    ensures CanMove(s)
  {
    var q :| PT.OwnStep(q) && P.Enabled(s.pool, q);
    if q.Finish? {
      StageMoves(s, q.w);
    } else {
      assert InsidePool(q);
      assert Enabled(s, PoolStep(q));
    }
  }

  lemma AcceptorMoves(s: State)
    requires Inv(s) && s.acceptor.Registered?
    ensures CanMove(s)
  {
    var e := |s.pollers|;
    if s.pool.enqs[e] != P.Outside {
      PT.EnqueuerMoves(s.pool, e);
      PoolMoves(s);
    } else {
      assert Enabled(s, Submit);
    }
  }

  lemma PollerMoves(s: State, p: nat)
    requires Inv(s) && p < |s.pollers| && s.pollers[p] != Waiting([])
    ensures CanMove(s)
  {
    if s.pool.enqs[p] != P.Outside {
      PT.EnqueuerMoves(s.pool, p);
      PoolMoves(s);
    } else {
      match s.pollers[p]
      case Waiting(batch) => assert Enabled(s, Deliver(p));
      case Marked(_, _) => assert Enabled(s, Hand(p));
      case Serving(batch) => ServerMoves(s, p);
      case WantReg(_, _) =>
        if RegistryFree(s) { assert Enabled(s, LockRegistry(p)); } else { RegistryHolderMoves(s); }
      case _ => RemoverMoves(s, p);
    }
  }

  lemma ServerMoves(s: State, p: nat)
    requires Inv(s) && p < |s.pollers| && s.pollers[p].Serving? && EnqueuerOutside(s, p)
    ensures CanMove(s)
  {
    var batch := s.pollers[p].batch;
    if batch == [] {
      assert Enabled(s, Rest(p));
    } else if batch[0].hangup {
      assert Enabled(s, TakeHangup(p));
    } else {
      assert EntryOk(s.conns, batch[0]);
      assert Enabled(s, Mark(p));
    }
  }

  /** A poller inside the registry mutex waits for nobody but the pool. */
  lemma RemoverMoves(s: State, p: nat)
    requires Inv(s) && p < |s.pollers| && InRegistry(s.pollers[p])
    ensures CanMove(s)
  {
    if s.pool.enqs[p] != P.Outside {
      PT.EnqueuerMoves(s.pool, p);
      PoolMoves(s);
    } else {
      RemoverGoesOn(s, p);
    }
  }

  lemma RemoverGoesOn(s: State, p: nat)
    requires PoolInv(s) && TaskNamesInv(s) && BatchInv(s) && HomeInv(s)
    requires p < |s.pollers| && InRegistry(s.pollers[p]) && s.pool.enqs[p] == P.Outside
    ensures CanMove(s)
  {
    match s.pollers[p]
    case Closing(_, _) => assert Enabled(s, WriteClosed(p));
    case Deleting(_, _) => assert Enabled(s, Delete(p));
    case Shutting(_, _) => assert Enabled(s, Close(p));
    case Submitting(_, _) => assert Enabled(s, HandClosed(p));
    case Leaving(_) => assert Enabled(s, Leave(p));
  }

  lemma RegistryHolderMoves(s: State)
    requires Inv(s) && !RegistryFree(s)
    ensures CanMove(s)
  {
    if s.acceptor.Registered? {
      AcceptorMoves(s);
    } else if s.pool.enqs[|s.pollers|] != P.Outside {
      PT.EnqueuerMoves(s.pool, |s.pollers|);
      PoolMoves(s);
    } else {
      var p :| 0 <= p < |s.pollers| && InRegistry(s.pollers[p]);
      RemoverMoves(s, p);
    }
  }

  lemma WitnessEdgeMoves(s: State, c: ConnId)
    requires Inv(s) && c < |s.conns| && s.conns[c].edge
    ensures CanMove(s)
  {
    var p := s.conns[c].home.value;
    if s.pollers[p] != Waiting([]) {
      PollerMoves(s, p);
    } else {
      assert Enabled(s, Collect(p, c));
    }
  }

  lemma WitnessMoves(s: State, c: ConnId, x: Witness)
    requires Inv(s) && |s.stages| > 0 && c < |s.conns| && Shows(s, c, x)
    ensures CanMove(s)
  {
    match x
    case PendingEdge => WitnessEdgeMoves(s, c);
    case InBatch(p, i) => PollerMoves(s, p);
    case AboutToEnqueue(p) => PollerMoves(s, p);
    case BeingPushed(e) => PT.EnqueuerMoves(s.pool, e); PoolMoves(s);
    case Queued(i) =>
      PT.QuietPoolIsEmpty(s.pool);
      PoolMoves(s);
    case BeforeSnapshot(w) => StageMoves(s, w);
  }

  /** Nothing is unread at any connection that has been accepted and registered, has not hung up,
      and has had no failing read. */
  ghost predicate AllRead(s: State) {
    forall c :: 0 <= c < |s.conns| && s.conns[c].home.Some? && Healthy(s.conns[c]) ==> s.conns[c].unread == 0
  }

  /** No thread has anything in hand, and the pool sleeps over an empty queue. */
  ghost predicate Idling(s: State) {
    && s.pool.queue == [] && s.acceptor == Idle
    && (forall p :: 0 <= p < |s.pollers| ==> s.pollers[p] == Waiting([]))
    && (forall w :: 0 <= w < |s.stages| ==> s.stages[w] == NoTask)
    && (forall w :: 0 <= w < |s.pool.workers| ==> s.pool.workers[w] == P.Blocked)
  }

  /** When the server can make no step of its own, whether or not connections are still waiting
      to be accepted, everything that arrived at a registered connection has been read. */
  lemma AtRestAllRead(workers: nat, pollers: nat, s: State)
    requires workers > 0 && Reachable(workers, pollers, s) && !CanMove(s)
    ensures AllRead(s) && Idling(s)
  {
    ReachableInv(workers, pollers, s);
    RestImpliesRead(s);
    RestImpliesIdling(s);
  }

  lemma RestImpliesRead(s: State)
    requires Inv(s) && |s.stages| > 0
    ensures !CanMove(s) ==> AllRead(s)
  {
    if CanMove(s) { return; }
    forall c | 0 <= c < |s.conns| && s.conns[c].home.Some? && Healthy(s.conns[c]) ensures s.conns[c].unread == 0 {
      if s.conns[c].unread > Claimed(s, c) {
        var x :| Shows(s, c, x);
        WitnessMoves(s, c, x);
      } else if Claimed(s, c) > 0 {
        StageMoves(s, s.conns[c].holder.value);
      }
    }
  }

  lemma RestImpliesIdling(s: State)
    requires Inv(s) && |s.stages| > 0
    ensures !CanMove(s) ==> Idling(s)
  {
    if CanMove(s) { return; }
    if s.acceptor != Idle { AcceptorMoves(s); }
    forall p | 0 <= p < |s.pollers| ensures s.pollers[p] == Waiting([]) {
      if s.pollers[p] != Waiting([]) { PollerMoves(s, p); }
    }
    forall w | 0 <= w < |s.stages| ensures s.stages[w] == NoTask {
      if s.stages[w] != NoTask { StageMoves(s, w); }
    }
    if PT.CanMove(s.pool) { PoolMoves(s); }
    PT.QuietPoolIsEmpty(s.pool);
  }

  // ---------------------------------------------------------------- the drain measure

  function WorkerWeight(pc: P.WorkerPc): (n: nat) {
    match pc
    case Blocked => 0
    case AboutToBlock => 1
    case Ready => 2
    case Check => 3
    case WantLock => 4
    case Woken => 4
    case LoopTop => 5
    case Running(_) => 6
    case Exited => 0
  }

  function EnqWeight(pc: P.EnqPc): (n: nat) {
    match pc
    case Outside => 0
    case Notifying => 5
    case Pushing(_) => 19
    case WantPush(_) => 20
  }

  function StageWeight(stage: Stage): (n: nat) {
    match stage
    case NoTask => 0
    case Returned => 0
    case Release(_) => 1
    case Reading(_, _) => 2
    case Snapshot(_) => 3
    case WantSocket(_) => 4
    case Peek(_) => 5
    case Test3(_) => 6
    case Test2(_) => 7
    case Test1(_) => 8
  }

  function PollerWeight(pc: PollerPc): (n: nat) {
    match pc
    case Waiting(batch) => if batch == [] then 0 else 30 * |batch| + 2
    case Serving(batch) => 30 * |batch| + 1
    case Marked(_, batch) => 30 * |batch| + 22
    case WantReg(_, batch) => 30 * |batch| + 28
    case Closing(_, batch) => 30 * |batch| + 27
    case Deleting(_, batch) => 30 * |batch| + 26
    case Shutting(_, batch) => 30 * |batch| + 25
    case Submitting(_, batch) => 30 * |batch| + 24
    case Leaving(batch) => 30 * |batch| + 2
  }

  function ConnWeight(conn: Conn): (n: nat) {
    conn.unread + (if conn.edge then 33 else 0) + (if conn.home == None then 55 else 0) + if conn.hung then 0 else 34
  }

  ghost function PoolWeight(pool: P.State): (n: nat) {
    Sum(pool.workers, WorkerWeight) + Sum(pool.enqs, EnqWeight) + 13 * |pool.queue|
  }

  /** Unread bytes, edges, batch entries, queued tasks and the positions of all threads. */
  ghost function Measure(s: State): (n: nat) {
    PoolWeight(s.pool) + Sum(s.stages, StageWeight) + Sum(s.pollers, PollerWeight) + Sum(s.conns, ConnWeight)
    + (if s.acceptor.Registered? then 21 else 0) + s.interrupts + 5 * s.spurious
  }

  /** How a pool step changes the pool's weight. */
  lemma EnqueuerWeighs(pool: P.State, q: P.Step)
    requires P.Enabled(pool, q) && (q.CallEnqueue? || q.EnqLock? || q.EnqPush? || q.EnqNotify?)
    ensures var d := PoolWeight(P.Next(pool, q)) - PoolWeight(pool);
            if q.CallEnqueue? then d == 20 else d < 0
  {
    var t := P.Next(pool, q);
    SumUpdate(pool.enqs, q.e, t.enqs[q.e], EnqWeight);
    if q.EnqNotify? && q.w < |pool.workers| {
      SumUpdate(pool.workers, q.w, t.workers[q.w], WorkerWeight);
    }
  }

  lemma WorkerWeighs(pool: P.State, q: P.Step)
    requires !pool.stop && P.Enabled(pool, q)
    requires q.LoopTest? || q.WorkerLock? || q.Evaluate? || q.Block? || q.Spurious? || q.Take? || q.Finish?
    ensures var d := PoolWeight(P.Next(pool, q)) - PoolWeight(pool);
            && (q.LoopTest? || q.WorkerLock? || q.Evaluate? || q.Block? ==> d < 0)
            && (q.Take? ==> d == -9)
            && (q.Finish? ==> d == -1)
            && (q.Spurious? ==> d == 4)
  {
    SumUpdate(pool.workers, q.w, P.Next(pool, q).workers[q.w], WorkerWeight);
  }

  lemma AcceptorDrains(s: State, st: Step)
    requires Inv(s) && Enabled(s, st) && SideOf(st) == AcceptorSide && !st.Arrive?
    ensures Measure(Next(s, st)) < Measure(s)
  {
    var t := Next(s, st);
    match st
    case HangUp(c) => HangUpDrains(s, c);
    case Register(c, p) => SumUpdate(s.conns, c, t.conns[c], ConnWeight);
    case Submit => EnqueuerWeighs(s.pool, P.CallEnqueue(|s.pollers|, s.acceptor.conn));
  }

  lemma HangUpDrains(s: State, c: ConnId)
    requires Enabled(s, HangUp(c))
    ensures Measure(Next(s, HangUp(c))) < Measure(s)
  {
    SumUpdate(s.conns, c, Next(s, HangUp(c)).conns[c], ConnWeight);
  }

  lemma CollectDrains(s: State, p: nat, c: ConnId)
    requires Enabled(s, Collect(p, c))
    ensures Measure(Next(s, Collect(p, c))) < Measure(s)
  {
    var t := Next(s, Collect(p, c));
    SumUpdate(s.conns, c, t.conns[c], ConnWeight);
    if s.conns[c].unread > 0 || s.conns[c].hung {
      SumUpdate(s.pollers, p, t.pollers[p], PollerWeight);
    }
  }

  lemma MarkDrains(s: State, p: nat)
    requires Enabled(s, Mark(p))
    ensures Measure(Next(s, Mark(p))) < Measure(s)
  {
    var t := Next(s, Mark(p));
    var c := s.pollers[p].batch[0].conn;
    SumUpdate(s.pollers, p, t.pollers[p], PollerWeight);
    SumUpdate(s.conns, c, t.conns[c], ConnWeight);
  }

  lemma PollerDrains(s: State, st: Step)
    requires Inv(s) && Enabled(s, st) && SideOf(st) == PollerSide
    ensures Measure(Next(s, st)) < Measure(s)
  {
    match st
    case Collect(p, c) => CollectDrains(s, p, c);
    case Mark(p) => MarkDrains(s, p);
    case Deliver(p) => SumUpdate(s.pollers, p, Next(s, st).pollers[p], PollerWeight);
    case Rest(p) => SumUpdate(s.pollers, p, Next(s, st).pollers[p], PollerWeight);
    case Hand(p) => HandDrains(s, p);
  }

  lemma HandDrains(s: State, p: nat)
    requires Enabled(s, Hand(p))
    ensures Measure(Next(s, Hand(p))) < Measure(s)
  {
    SumUpdate(s.pollers, p, Next(s, Hand(p)).pollers[p], PollerWeight);
    EnqueuerWeighs(s.pool, P.CallEnqueue(p, s.pollers[p].conn));
  }

  lemma RemoverDrains(s: State, st: Step)
    requires Enabled(s, st) && SideOf(st) == RemoverSide
    ensures Measure(Next(s, st)) < Measure(s)
  {
    if st.WriteClosed? || st.Delete? || st.Close? {
      RemovalDrains(s, st);
    } else if st.HandClosed? {
      HandClosedDrains(s, st.p);
    } else {
      PassDrains(s, st);
    }
  }

  lemma PassDrains(s: State, st: Step)
    requires Enabled(s, st) && (st.TakeHangup? || st.LockRegistry? || st.Leave?)
    ensures Measure(Next(s, st)) < Measure(s)
  {
    var t := Next(s, st);
    PassLowers(s, st);
    SumUpdate(s.pollers, st.p, t.pollers[st.p], PollerWeight);
    assert Measure(t) - Measure(s) == Sum(t.pollers, PollerWeight) - Sum(s.pollers, PollerWeight);
  }

  lemma PassLowers(s: State, st: Step)
    requires Enabled(s, st) && (st.TakeHangup? || st.LockRegistry? || st.Leave?)
    ensures var t := Next(s, st);
            && st.p < |s.pollers| && |t.pollers| == |s.pollers| && t == s.(pollers := s.pollers[st.p := t.pollers[st.p]])
            && PollerWeight(t.pollers[st.p]) < PollerWeight(s.pollers[st.p])
  {
  }

  /** A step of the removal that changes the connection lowers its weight, or leaves it. */
  lemma RemovalDrains(s: State, st: Step)
    requires Enabled(s, st) && (st.WriteClosed? || st.Delete? || st.Close?)
    ensures Measure(Next(s, st)) < Measure(s)
  {
    var t, c := Next(s, st), s.pollers[st.p].conn;
    RemovalLowers(s, st);
    SumUpdate(s.pollers, st.p, t.pollers[st.p], PollerWeight);
    SumUpdate(s.conns, c, t.conns[c], ConnWeight);
  }

  lemma RemovalLowers(s: State, st: Step)
    requires Enabled(s, st) && (st.WriteClosed? || st.Delete? || st.Close?)
    ensures var t, c := Next(s, st), s.pollers[st.p].conn;
            && st.p < |s.pollers| && c < |s.conns| && |t.conns| == |s.conns| && |t.pollers| == |s.pollers|
            && t == s.(pollers := s.pollers[st.p := t.pollers[st.p]], conns := s.conns[c := t.conns[c]])
            && PollerWeight(t.pollers[st.p]) + ConnWeight(t.conns[c]) < PollerWeight(s.pollers[st.p]) + ConnWeight(s.conns[c])
  {
  }

  lemma HandClosedDrains(s: State, p: nat)
    requires Enabled(s, HandClosed(p))
    ensures Measure(Next(s, HandClosed(p))) < Measure(s)
  {
    SumUpdate(s.pollers, p, Next(s, HandClosed(p)).pollers[p], PollerWeight);
    EnqueuerWeighs(s.pool, P.CallEnqueue(p, s.pollers[p].conn));
  }

  lemma FailDrains(s: State, w: nat)
    requires Enabled(s, ReadFail(w))
    ensures Measure(Next(s, ReadFail(w))) < Measure(s)
  {
    var t, c := Next(s, ReadFail(w)), s.stages[w].conn;
    SumUpdate(s.stages, w, t.stages[w], StageWeight);
    SumUpdate(s.conns, c, t.conns[c], ConnWeight);
  }

  lemma ReadDrains(s: State, w: nat, n: nat)
    requires Enabled(s, Read(w, n))
    ensures Measure(Next(s, Read(w, n))) < Measure(s)
  {
    var t := Next(s, Read(w, n));
    var c := s.stages[w].conn;
    SumUpdate(s.stages, w, t.stages[w], StageWeight);
    SumUpdate(s.conns, c, t.conns[c], ConnWeight);
  }

  lemma MutexDrains(s: State, st: Step)
    requires Enabled(s, st) && (st.LockSocket? || st.UnlockSocket?)
    ensures Measure(Next(s, st)) < Measure(s)
  {
    var t, c := Next(s, st), s.stages[st.w].conn;
    MutexLowers(s, st);
    SumUpdate(s.stages, st.w, t.stages[st.w], StageWeight);
    SumUpdate(s.conns, c, t.conns[c], ConnWeight);
  }

  lemma MutexLowers(s: State, st: Step)
    requires Enabled(s, st) && (st.LockSocket? || st.UnlockSocket?)
    ensures var t, c := Next(s, st), s.stages[st.w].conn;
            && c < |s.conns| && |t.stages| == |s.stages| && |t.conns| == |s.conns|
            && t == s.(stages := s.stages[st.w := t.stages[st.w]], conns := s.conns[c := t.conns[c]])
            && StageWeight(t.stages[st.w]) < StageWeight(s.stages[st.w]) && ConnWeight(t.conns[c]) == ConnWeight(s.conns[c])
  {
  }

  lemma StageDrains(s: State, st: Step)
    requires Enabled(s, st) && (st.Test? || st.PeekSize? || st.TakeSnapshot? || st.WouldBlock? || st.EndRead?)
    ensures Measure(Next(s, st)) < Measure(s)
  {
    var t := Next(s, st);
    StageLowers(s, st);
    SumUpdate(s.stages, st.w, t.stages[st.w], StageWeight);
    assert Measure(t) - Measure(s) == Sum(t.stages, StageWeight) - Sum(s.stages, StageWeight);
  }

  lemma StageLowers(s: State, st: Step)
    requires Enabled(s, st) && (st.Test? || st.PeekSize? || st.TakeSnapshot? || st.WouldBlock? || st.EndRead?)
    ensures var t := Next(s, st);
            && st.w < |s.stages| && t == s.(stages := s.stages[st.w := t.stages[st.w]], told := t.told) && |t.stages| == |s.stages|
            && StageWeight(t.stages[st.w]) < StageWeight(s.stages[st.w])
  {
  }

  lemma WorkerDrains(s: State, st: Step)
    requires Enabled(s, st) && SideOf(st) == WorkerSide
    ensures Measure(Next(s, st)) < Measure(s)
  {
    match st
    case Read(w, n) => ReadDrains(s, w, n);
    case LockSocket(w) => MutexDrains(s, st);
    case UnlockSocket(w) => MutexDrains(s, st);
    case Interrupt(w) =>
    case ReadFail(w) => FailDrains(s, w);
    case Test(w) => StageDrains(s, st);
    case PeekSize(w) => StageDrains(s, st);
    case TakeSnapshot(w) => StageDrains(s, st);
    case WouldBlock(w) => StageDrains(s, st);
    case EndRead(w) => StageDrains(s, st);
  }

  lemma PoolSideDrains(s: State, st: Step)
    requires Inv(s) && Enabled(s, st) && SideOf(st) == PoolSide
    ensures Measure(Next(s, st)) < Measure(s)
  {
    match st
    case PoolStep(q) => if q.Take? { TakeDrains(s, q); } else { PoolDrains(s, q); }
    case SpuriousWake(w) => WorkerWeighs(s.pool, P.Spurious(w));
    case Finish(w) => FinishDrains(s, w);
  }

  lemma PoolDrains(s: State, q: P.Step)
    requires !s.pool.stop && Enabled(s, PoolStep(q)) && !q.Take?
    ensures Measure(Next(s, PoolStep(q))) < Measure(s)
  {
    if q.EnqLock? || q.EnqPush? || q.EnqNotify? {
      EnqueuerWeighs(s.pool, q);
    } else {
      WorkerWeighs(s.pool, q);
    }
  }

  lemma TakeDrains(s: State, q: P.Step)
    requires !s.pool.stop && |s.stages| == |s.pool.workers| && Enabled(s, PoolStep(q)) && q.Take?
    ensures Measure(Next(s, PoolStep(q))) < Measure(s)
  {
    WorkerWeighs(s.pool, q);
    SumUpdate(s.stages, q.w, Next(s, PoolStep(q)).stages[q.w], StageWeight);
  }

  lemma FinishDrains(s: State, w: nat)
    requires !s.pool.stop && Enabled(s, Finish(w))
    ensures Measure(Next(s, Finish(w))) < Measure(s)
  {
    WorkerWeighs(s.pool, P.Finish(w));
    SumUpdate(s.stages, w, Next(s, Finish(w)).stages[w], StageWeight);
  }

  /** Once no more bytes arrive, every step, whoever takes it, makes the measure smaller; hang-ups,
      removals and failing reads included. */
  lemma EveryStepDrains(workers: nat, pollers: nat, s: State, st: Step)
    requires Reachable(workers, pollers, s) && Enabled(s, st) && !st.Arrive?
    ensures Measure(Next(s, st)) < Measure(s)
  {
    ReachableInv(workers, pollers, s);
    DrainStep(s, st);
  }

  lemma DrainStep(s: State, st: Step)
    requires Inv(s) && Enabled(s, st) && !st.Arrive?
    ensures Measure(Next(s, st)) < Measure(s)
  {
    match SideOf(st)
    case AcceptorSide => AcceptorDrains(s, st);
    case PollerSide => PollerDrains(s, st);
    case RemoverSide => RemoverDrains(s, st);
    case WorkerSide => WorkerDrains(s, st);
    case PoolSide => PoolSideDrains(s, st);
  }

  predicate NoArrival(steps: seq<Step>) {
    steps == [] || (!steps[0].Arrive? && NoArrival(steps[1..]))
  }

  /** So a run without arrivals is no longer than the measure of the state it starts in, and
      where the server cannot go on by itself, everything has been read. */
  lemma Drains(workers: nat, pollers: nat, s: State, steps: seq<Step>)
    requires workers > 0 && Reachable(workers, pollers, s)
    requires Legal(s, steps) && NoArrival(steps)
    ensures |steps| <= Measure(s)
    ensures !CanMove(Exec(s, steps)) ==> AllRead(Exec(s, steps)) && Idling(Exec(s, steps))
  {
    ReachableInv(workers, pollers, s);
    DrainRun(s, steps);
    InvRun(s, steps);
    RestImpliesRead(Exec(s, steps));
    RestImpliesIdling(Exec(s, steps));
  }

  lemma {:induction false} DrainRun(s: State, steps: seq<Step>)
    requires Inv(s) && Legal(s, steps) && NoArrival(steps)
    ensures |steps| + Measure(Exec(s, steps)) <= Measure(s)
    decreases |steps|
  {
    if steps == [] {
    } else {
      var t, rest := Next(s, steps[0]), steps[1..];
      InvStep(s, steps[0]);
      DrainStep(s, steps[0]);
      DrainRun(t, rest);
    }
  }
}
