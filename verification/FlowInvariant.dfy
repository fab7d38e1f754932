/** No byte is left without something that will read it: the invariant of FlowMachine. */
module FlowInvariant {
  import opened Common
  import P = PoolMachine
  import opened FlowMachine

  // ---------------------------------------------------------------- who will read

  /** What the worker that reads connection `c` under its socket mutex will still take. */
  function Claimed(s: State, c: ConnId): (n: nat)
    requires c < |s.conns|
  {
    match s.conns[c].holder
    case None => 0
    case Some(w) => if w < |s.stages| && s.stages[w].Reading? then s.stages[w].left else 0
  }

  /** Something in the system that stands between the unread bytes of a connection and a reader
      that has not yet asked how much there is. */
  datatype Witness =
    | PendingEdge
    | InBatch(p: nat, i: nat)
    | AboutToEnqueue(p: nat)
    | BeingPushed(e: nat)
    | Queued(i: nat)
    | BeforeSnapshot(w: nat)

  predicate Shows(s: State, c: ConnId, x: Witness)
    requires c < |s.conns|
  {
    match x
    case PendingEdge => s.conns[c].edge
    case InBatch(p, i) => p < |s.pollers| && i < |s.pollers[p].batch| && s.pollers[p].batch[i].conn == c
    case AboutToEnqueue(p) => p < |s.pollers| && s.pollers[p].Marked? && s.pollers[p].conn == c
    case BeingPushed(e) =>
      && s.conns[c].kind == IncomingData && e < |s.pool.enqs|
      && (s.pool.enqs[e] == P.WantPush(c) || s.pool.enqs[e] == P.Pushing(c))
    case Queued(i) => s.conns[c].kind == IncomingData && i < |s.pool.queue| && s.pool.queue[i] == c
    case BeforeSnapshot(w) =>
      w < |s.stages|
      && (s.stages[w] == Peek(c) || s.stages[w] == WantSocket(c) || s.stages[w] == Snapshot(c)
          || (s.stages[w] == Test1(c) && s.conns[c].kind == IncomingData))
  }

  ghost predicate WillBeRead(s: State, c: ConnId)
    requires c < |s.conns|
  {
    exists x :: Shows(s, c, x)
  }

  // ---------------------------------------------------------------- the invariant

  ghost predicate PoolInv(s: State) {
    P.Inv(s.pool) && !s.pool.stop && |s.stages| == |s.pool.workers| && |s.pool.enqs| == |s.pollers| + 1
  }

  ghost predicate StageInv(s: State) {
    && (forall w :: 0 <= w < |s.stages| && w < |s.pool.workers| ==> (s.stages[w] == NoTask <==> !s.pool.workers[w].Running?))
    && (forall w :: 0 <= w < |s.stages| && s.stages[w] != NoTask && s.stages[w] != Returned ==> s.stages[w].conn < |s.conns|)
  }

  /** All connections named by tasks and by pollers exist. */
  ghost predicate TaskNamesInv(s: State) {
    && (forall i :: 0 <= i < |s.pool.queue| ==> s.pool.queue[i] < |s.conns|)
    && (forall e :: 0 <= e < |s.pool.enqs| && s.pool.enqs[e].WantPush? ==> s.pool.enqs[e].task < |s.conns|)
    && (forall e :: 0 <= e < |s.pool.enqs| && s.pool.enqs[e].Pushing? ==> s.pool.enqs[e].task < |s.conns|)
    && (s.acceptor.Registered? ==> s.acceptor.conn < |s.conns|)
  }

  /** The peer is there, and no read has failed. */
  predicate Healthy(conn: Conn) {
    !conn.hung && !conn.failed
  }

  /** What a poller has collected is registered, what it has marked carries data unless the peer
      has hung up, and what it removes has hung up. */
  ghost predicate BatchInv(s: State) {
    && (forall p, i :: 0 <= p < |s.pollers| && 0 <= i < |s.pollers[p].batch| ==>
          EntryOk(s.conns, s.pollers[p].batch[i]))
    && (forall p :: 0 <= p < |s.pollers| && s.pollers[p].Marked? ==>
          && s.pollers[p].conn < |s.conns| && s.conns[s.pollers[p].conn].home.Some?
          && (s.conns[s.pollers[p].conn].kind == IncomingData || s.conns[s.pollers[p].conn].hung))
    && (forall p :: 0 <= p < |s.pollers| && Removing(s.pollers[p]) ==>
          s.pollers[p].conn < |s.conns| && s.conns[s.pollers[p].conn].hung)
  }

  predicate EntryOk(conns: seq<Conn>, entry: Entry) {
    entry.conn < |conns| && conns[entry.conn].home.Some? && (entry.hangup ==> conns[entry.conn].hung)
  }

  /** Only registered connections carry data or have an edge, and their poller exists. */
  ghost predicate HomeInv(s: State) {
    && (forall c :: 0 <= c < |s.conns| && s.conns[c].kind == IncomingData ==> s.conns[c].home.Some?)
    && (forall c :: 0 <= c < |s.conns| && s.conns[c].edge ==> s.conns[c].home.Some?)
    && (forall c :: 0 <= c < |s.conns| && s.conns[c].home.Some? ==> s.conns[c].home.value < |s.pollers|)
  }

  predicate HoldsSocket(stage: Stage, c: ConnId) {
    stage == Snapshot(c) || stage == Release(c) || (stage.Reading? && stage.conn == c)
  }

  /** The socket mutex excludes, so what a reader was promised is still there. */
  ghost predicate SocketInv(s: State) {
    && (forall c, w :: 0 <= c < |s.conns| && 0 <= w < |s.stages| ==>
          (HoldsSocket(s.stages[w], c) <==> s.conns[c].holder == Some(w)))
    && (forall c :: 0 <= c < |s.conns| && s.conns[c].holder.Some? ==> s.conns[c].holder.value < |s.stages|)
    && (forall w :: 0 <= w < |s.stages| && s.stages[w].Reading? && s.stages[w].conn < |s.conns| ==>
          s.stages[w].left <= s.conns[s.stages[w].conn].unread || s.conns[s.stages[w].conn].closed)
  }

  /** Of a registered connection that has not hung up and whose reads have not failed, whatever
      the others do. */
  ghost predicate NoStall(s: State) {
    forall c :: 0 <= c < |s.conns| && s.conns[c].home.Some? && Healthy(s.conns[c]) && s.conns[c].unread > Claimed(s, c) ==>
      WillBeRead(s, c)
  }

  ghost predicate Inv(s: State) {
    PoolInv(s) && StageInv(s) && TaskNamesInv(s) && BatchInv(s) && HomeInv(s) && SocketInv(s) && NoStall(s)
  }

  // ---------------------------------------------------------------- its preservation

  lemma InitInv(workers: nat, pollers: nat, arrived: seq<nat>, interrupts: nat, spurious: nat)
    ensures Inv(Init(workers, pollers, arrived, interrupts, spurious))
  {
    P.InitInv(workers, pollers + 1);
  }

  /** The pool takes one step of its own machine, or none. */
  lemma PoolPreserved(s: State, st: Step)
    requires PoolInv(s) && Enabled(s, st)
    ensures PoolInv(Next(s, st))
  {
    if SideOf(st) == PoolSide {
      PoolMoved(s, st);
    } else if st.Submit? {
      CallMoved(s, st, P.CallEnqueue(|s.pollers|, s.acceptor.conn));
    } else if st.Hand? || st.HandClosed? {
      CallMoved(s, st, P.CallEnqueue(st.p, s.pollers[st.p].conn));
    } else {
      PoolResting(s, st);
    }
  }

  lemma PoolResting(s: State, st: Step)
    requires PoolInv(s) && Enabled(s, st) && SideOf(st) != PoolSide && !st.Submit? && !st.Hand? && !st.HandClosed?
    ensures PoolInv(Next(s, st))
  {
    assert Next(s, st).pool == s.pool;
  }

  lemma CallMoved(s: State, st: Step, q: P.Step)
    requires PoolInv(s) && Enabled(s, st) && (st.Submit? || st.Hand? || st.HandClosed?)
    requires q == if st.Submit? then P.CallEnqueue(|s.pollers|, s.acceptor.conn) else P.CallEnqueue(st.p, s.pollers[st.p].conn)
    ensures PoolInv(Next(s, st))
  {
    P.InvStep(s.pool, q);
  }

  lemma PoolMoved(s: State, st: Step)
    requires PoolInv(s) && Enabled(s, st) && SideOf(st) == PoolSide
    ensures PoolInv(Next(s, st))
  {
    match st
    case PoolStep(q) => P.InvStep(s.pool, q);
    case SpuriousWake(w) => P.InvStep(s.pool, P.Spurious(w));
    case Finish(w) => P.InvStep(s.pool, P.Finish(w));
  }

  /** A worker's stage and its position in the pool agree when a task ends. */
  lemma StageFinish(s: State, w: nat)
    requires PoolInv(s) && StageInv(s) && Enabled(s, Finish(w))
    ensures StageInv(Next(s, Finish(w)))
  {
  }

  lemma StageTake(s: State, w: nat)
    requires PoolInv(s) && StageInv(s) && TaskNamesInv(s) && Enabled(s, PoolStep(P.Take(w)))
    ensures StageInv(Next(s, PoolStep(P.Take(w))))
  {
  }

  lemma StagePool(s: State, st: Step)
    requires PoolInv(s) && StageInv(s) && TaskNamesInv(s) && Enabled(s, st) && SideOf(st) == PoolSide
    ensures StageInv(Next(s, st))
  {
    if st.Finish? {
      StageFinish(s, st.w);
    } else if st.PoolStep? && st.st.Take? {
      StageTake(s, st.st.w);
    } else {
      StageKept(s, st);
    }
  }

  lemma StageKept(s: State, st: Step)
    requires PoolInv(s) && StageInv(s) && Enabled(s, st) && SideOf(st) == PoolSide
    requires !st.Finish? && !(st.PoolStep? && st.st.Take?)
    ensures StageInv(Next(s, st))
  {
    RunningKept(s.pool, if st.PoolStep? then st.st else P.Spurious(st.w));
    assert Next(s, st).stages == s.stages && Next(s, st).conns == s.conns;
  }

  /** Only taking and finishing a task changes who executes one. */
  lemma RunningKept(pool: P.State, q: P.Step)
    requires P.Enabled(pool, q) && !q.Take? && !q.Finish?
    ensures |P.Next(pool, q).workers| == |pool.workers|
    ensures forall w :: 0 <= w < |pool.workers| ==> P.Next(pool, q).workers[w].Running? == pool.workers[w].Running?
  {
  }

  lemma StageAcceptor(s: State, st: Step)
    requires PoolInv(s) && StageInv(s) && TaskNamesInv(s) && Enabled(s, st) && SideOf(st) == AcceptorSide
    ensures StageInv(Next(s, st))
  {
  }

  lemma StagePoller(s: State, st: Step)
    requires PoolInv(s) && StageInv(s) && TaskNamesInv(s) && Enabled(s, st) && SideOf(st) == PollerSide
    ensures StageInv(Next(s, st))
  {
  }

  lemma StageRemover(s: State, st: Step)
    requires PoolInv(s) && StageInv(s) && Enabled(s, st) && SideOf(st) == RemoverSide
    ensures StageInv(Next(s, st))
  {
    var t := Next(s, st);
    assert t.stages == s.stages && |t.conns| == |s.conns| && t.pool.workers == s.pool.workers;
  }

  lemma StageWorker(s: State, st: Step)
    requires PoolInv(s) && StageInv(s) && TaskNamesInv(s) && Enabled(s, st) && SideOf(st) == WorkerSide
    ensures StageInv(Next(s, st))
  {
    var t := Next(s, st);
    assert t.pool == s.pool && |t.conns| == |s.conns| && t.stages == s.stages[st.w := t.stages[st.w]];
    assert t.stages[st.w] != NoTask && (t.stages[st.w] != Returned ==> t.stages[st.w].conn < |t.conns|);
  }

  lemma TaskNamesAcceptor(s: State, st: Step)
    requires PoolInv(s) && TaskNamesInv(s) && BatchInv(s) && Enabled(s, st) && SideOf(st) == AcceptorSide
    ensures TaskNamesInv(Next(s, st))
  {
  }

  lemma TaskNamesPoller(s: State, st: Step)
    requires PoolInv(s) && TaskNamesInv(s) && BatchInv(s) && Enabled(s, st) && SideOf(st) == PollerSide
    ensures TaskNamesInv(Next(s, st))
  {
  }

  lemma TaskNamesRemover(s: State, st: Step)
    requires PoolInv(s) && TaskNamesInv(s) && BatchInv(s) && Enabled(s, st) && SideOf(st) == RemoverSide
    ensures TaskNamesInv(Next(s, st))
  {
    var t := Next(s, st);
    assert |t.conns| == |s.conns| && t.pool.queue == s.pool.queue && t.acceptor == s.acceptor;
  }

  lemma TaskNamesWorker(s: State, st: Step)
    requires PoolInv(s) && TaskNamesInv(s) && BatchInv(s) && Enabled(s, st) && SideOf(st) == WorkerSide
    ensures TaskNamesInv(Next(s, st))
  {
  }

  lemma TaskNamesTake(s: State, w: nat)
    requires TaskNamesInv(s) && Enabled(s, PoolStep(P.Take(w)))
    ensures TaskNamesInv(Next(s, PoolStep(P.Take(w))))
  {
  }

  lemma TaskNamesPool(s: State, st: Step)
    requires TaskNamesInv(s) && Enabled(s, st) && SideOf(st) == PoolSide
    ensures TaskNamesInv(Next(s, st))
  {
    if st.PoolStep? && st.st.Take? {
      TaskNamesTake(s, st.st.w);
    } else {
      TaskNamesOther(s, st);
    }
  }

  lemma TaskNamesOther(s: State, st: Step)
    requires TaskNamesInv(s) && Enabled(s, st) && SideOf(st) == PoolSide && !(st.PoolStep? && st.st.Take?)
    ensures TaskNamesInv(Next(s, st))
  {
    assert Next(s, st).conns == s.conns && Next(s, st).pollers == s.pollers;
  }

  lemma BatchPoller(s: State, st: Step)
    requires BatchInv(s) && HomeInv(s) && Enabled(s, st) && SideOf(st) == PollerSide
    ensures BatchInv(Next(s, st))
  {
    if st.Collect? {
      BatchCollected(s, st.p, st.c);
    } else if st.Mark? {
      BatchMarked(s, st.p);
    } else {
      BatchPassed(s, st);
    }
  }

  lemma BatchCollected(s: State, p: nat, c: ConnId)
    requires BatchInv(s) && HomeInv(s) && Enabled(s, Collect(p, c))
    ensures BatchInv(Next(s, Collect(p, c)))
  {
    var t := Next(s, Collect(p, c));
    forall q, i | 0 <= q < |t.pollers| && 0 <= i < |t.pollers[q].batch| ensures EntryOk(t.conns, t.pollers[q].batch[i]) {
      assert EntryOk(t.conns, Entry(c, s.conns[c].hung));
      if i < |s.pollers[q].batch| {
        assert EntryOk(s.conns, s.pollers[q].batch[i]);
      }
    }
  }

  lemma BatchMarked(s: State, p: nat)
    requires BatchInv(s) && Enabled(s, Mark(p))
    ensures BatchInv(Next(s, Mark(p)))
  {
    assert EntryOk(s.conns, s.pollers[p].batch[0]);
  }

  lemma BatchPassed(s: State, st: Step)
    requires BatchInv(s) && Enabled(s, st) && (st.Deliver? || st.Hand? || st.Rest?)
    ensures BatchInv(Next(s, st))
  {
    assert Next(s, st).conns == s.conns;
  }

  lemma BatchRemover(s: State, st: Step)
    requires BatchInv(s) && Enabled(s, st) && SideOf(st) == RemoverSide
    ensures BatchInv(Next(s, st))
  {
    if st.WriteClosed? || st.Delete? || st.Close? {
      BatchRemoving(s, st);
    } else {
      BatchLeft(s, st);
    }
  }

  lemma BatchRemoving(s: State, st: Step)
    requires BatchInv(s) && Enabled(s, st) && (st.WriteClosed? || st.Delete? || st.Close?)
    ensures BatchInv(Next(s, st))
  {
    var t, c := Next(s, st), s.pollers[st.p].conn;
    assert s.conns[c].hung;
    BatchOfHung(s, t, st.p, c);
  }

  /** The removal of a connection that has hung up disturbs no batch. */
  lemma BatchOfHung(s: State, t: State, p: nat, c: ConnId)
    requires BatchInv(s) && p < |s.pollers| && c < |s.conns| && s.conns[c].hung
    requires |t.conns| == |s.conns| && t.conns == s.conns[c := t.conns[c]]
    requires t.conns[c].home == s.conns[c].home && t.conns[c].hung
    requires |t.pollers| == |s.pollers| && t.pollers == s.pollers[p := t.pollers[p]]
    requires t.pollers[p].batch == s.pollers[p].batch && !t.pollers[p].Marked?
    requires Removing(t.pollers[p]) ==> t.pollers[p].conn == c
    ensures BatchInv(t)
  {
    forall q, i | 0 <= q < |t.pollers| && 0 <= i < |t.pollers[q].batch| ensures EntryOk(t.conns, t.pollers[q].batch[i]) {
      assert EntryOk(s.conns, s.pollers[q].batch[i]);
    }
  }

  lemma BatchLeft(s: State, st: Step)
    requires BatchInv(s) && Enabled(s, st) && (st.TakeHangup? || st.LockRegistry? || st.HandClosed? || st.Leave?)
    ensures BatchInv(Next(s, st))
  {
    assert Next(s, st).conns == s.conns;
    assert st.TakeHangup? ==> EntryOk(s.conns, s.pollers[st.p].batch[0]);
  }

  lemma BatchOthers(s: State, st: Step)
    requires BatchInv(s) && HomeInv(s) && Enabled(s, st) && SideOf(st) != PollerSide && SideOf(st) != RemoverSide
    ensures BatchInv(Next(s, st))
  {
    var t := Next(s, st);
    FlagsKept(s, st);
    BatchKept(s, t);
  }

  /** Only removal writes the kind of a registered connection to something else, nobody takes a
      home or a hang-up back, and only pollers touch pollers. */
  lemma FlagsKept(s: State, st: Step)
    requires Enabled(s, st) && SideOf(st) != PollerSide && SideOf(st) != RemoverSide
    ensures var t := Next(s, st);
            && t.pollers == s.pollers && |t.conns| == |s.conns|
            && forall c :: 0 <= c < |s.conns| ==>
                 && (s.conns[c].home.Some? ==> t.conns[c].home.Some? && t.conns[c].kind == s.conns[c].kind)
                 && (s.conns[c].hung ==> t.conns[c].hung)
  {
  }

  lemma BatchKept(s: State, t: State)
    requires BatchInv(s) && t.pollers == s.pollers && |t.conns| == |s.conns|
    requires forall c :: 0 <= c < |s.conns| ==>
               && (s.conns[c].home.Some? ==> t.conns[c].home.Some? && t.conns[c].kind == s.conns[c].kind)
               && (s.conns[c].hung ==> t.conns[c].hung)
    ensures BatchInv(t)
  {
    forall q, i | 0 <= q < |t.pollers| && 0 <= i < |t.pollers[q].batch| ensures EntryOk(t.conns, t.pollers[q].batch[i]) {
      assert EntryOk(s.conns, s.pollers[q].batch[i]);
    }
  }

  lemma BatchPreserved(s: State, st: Step)
    requires BatchInv(s) && HomeInv(s) && Enabled(s, st)
    ensures BatchInv(Next(s, st))
  {
    if SideOf(st) == PollerSide {
      BatchPoller(s, st);
    } else if SideOf(st) == RemoverSide {
      BatchRemover(s, st);
    } else {
      BatchOthers(s, st);
    }
  }

  lemma HomePreserved(s: State, st: Step)
    requires BatchInv(s) && HomeInv(s) && Enabled(s, st)
    ensures HomeInv(Next(s, st))
  {
    if SideOf(st) == AcceptorSide || SideOf(st) == PollerSide {
      HomeMoved(s, st);
    } else if SideOf(st) == RemoverSide {
      HomeRemover(s, st);
    } else {
      HomeSame(s, st);
    }
  }

  lemma HomeMoved(s: State, st: Step)
    requires BatchInv(s) && HomeInv(s) && Enabled(s, st) && (SideOf(st) == AcceptorSide || SideOf(st) == PollerSide)
    ensures HomeInv(Next(s, st))
  {
    if SideOf(st) == AcceptorSide {
      HomeAcceptor(s, st);
    } else {
      HomePoller(s, st);
    }
  }

  lemma HomeAcceptor(s: State, st: Step)
    requires BatchInv(s) && HomeInv(s) && Enabled(s, st) && SideOf(st) == AcceptorSide
    ensures HomeInv(Next(s, st))
  {
  }

  lemma HomePoller(s: State, st: Step)
    requires BatchInv(s) && HomeInv(s) && Enabled(s, st) && SideOf(st) == PollerSide
    ensures HomeInv(Next(s, st))
  {
  }

  lemma HomeRemover(s: State, st: Step)
    requires HomeInv(s) && Enabled(s, st) && SideOf(st) == RemoverSide
    ensures HomeInv(Next(s, st))
  {
  }

  lemma HomeSame(s: State, st: Step)
    requires HomeInv(s) && Enabled(s, st) && (SideOf(st) == WorkerSide || SideOf(st) == PoolSide)
    ensures HomeInv(Next(s, st))
  {
    var t := Next(s, st);
    assert t.pollers == s.pollers && |t.conns| == |s.conns|;
    assert forall c :: 0 <= c < |s.conns| ==>
      t.conns[c].kind == s.conns[c].kind && t.conns[c].edge == s.conns[c].edge && t.conns[c].home == s.conns[c].home;
  }

  lemma SocketAcceptor(s: State, st: Step)
    requires StageInv(s) && SocketInv(s) && Enabled(s, st) && SideOf(st) == AcceptorSide
    ensures SocketInv(Next(s, st))
  {
  }

  lemma SocketPoller(s: State, st: Step)
    requires StageInv(s) && SocketInv(s) && Enabled(s, st) && SideOf(st) == PollerSide
    ensures SocketInv(Next(s, st))
  {
    var t := Next(s, st);
    assert t.stages == s.stages && |t.conns| == |s.conns|;
    assert forall c :: 0 <= c < |s.conns| ==>
      t.conns[c].holder == s.conns[c].holder && t.conns[c].unread == s.conns[c].unread && t.conns[c].closed == s.conns[c].closed;
  }

  lemma SocketRemover(s: State, st: Step)
    requires StageInv(s) && SocketInv(s) && Enabled(s, st) && SideOf(st) == RemoverSide
    ensures SocketInv(Next(s, st))
  {
    var t := Next(s, st);
    assert t.stages == s.stages && |t.conns| == |s.conns|;
    assert forall c :: 0 <= c < |s.conns| ==> t.conns[c].holder == s.conns[c].holder;
    assert forall c :: 0 <= c < |s.conns| ==> t.conns[c].closed || (t.conns[c].unread == s.conns[c].unread && !s.conns[c].closed);
  }

  lemma SocketHandedOver(s: State, st: Step)
    requires StageInv(s) && SocketInv(s) && Enabled(s, st) && (st.LockSocket? || st.UnlockSocket?)
    ensures SocketInv(Next(s, st))
  {
    if st.LockSocket? {
      SocketLocked(s, st.w);
    } else {
      SocketUnlocked(s, st.w);
    }
  }

  lemma SocketLocked(s: State, w: nat)
    requires StageInv(s) && SocketInv(s) && Enabled(s, LockSocket(w))
    ensures SocketInv(Next(s, LockSocket(w)))
  {
  }

  lemma SocketUnlocked(s: State, w: nat)
    requires StageInv(s) && SocketInv(s) && Enabled(s, UnlockSocket(w))
    ensures SocketInv(Next(s, UnlockSocket(w)))
  {
    SocketGivenUp(s, Next(s, UnlockSocket(w)), w, s.stages[w].conn);
  }

  lemma SocketGivenUp(s: State, t: State, w: nat, c: ConnId)
    requires SocketInv(s) && w < |s.stages| && c < |s.conns| && HoldsSocket(s.stages[w], c)
    requires t.stages == s.stages[w := Returned] && t.conns == s.conns[c := s.conns[c].(holder := None)]
    ensures SocketInv(t)
  {
    assert s.conns[c].holder == Some(w);
  }

  lemma SocketRead(s: State, st: Step)
    requires StageInv(s) && SocketInv(s) && Enabled(s, st) && (st.TakeSnapshot? || st.Read? || st.ReadFail?)
    ensures SocketInv(Next(s, st))
  {
    if st.Read? {
      SocketReadSome(s, st.w, st.n);
    } else if st.ReadFail? {
      SocketReadFails(s, st.w);
    }
  }

  lemma SocketReadFails(s: State, w: nat)
    requires StageInv(s) && SocketInv(s) && Enabled(s, ReadFail(w))
    ensures SocketInv(Next(s, ReadFail(w)))
  {
  }

  lemma SocketReadSome(s: State, w: nat, n: nat)
    requires StageInv(s) && SocketInv(s) && Enabled(s, Read(w, n))
    ensures SocketInv(Next(s, Read(w, n)))
  {
  }

  lemma SocketUntouched(s: State, st: Step)
    requires StageInv(s) && SocketInv(s) && Enabled(s, st) && SideOf(st) == WorkerSide
    requires !st.LockSocket? && !st.UnlockSocket? && !st.TakeSnapshot? && !st.Read? && !st.ReadFail?
    ensures SocketInv(Next(s, st))
  {
    assert Next(s, st).conns == s.conns;
  }

  lemma SocketWorker(s: State, st: Step)
    requires StageInv(s) && SocketInv(s) && Enabled(s, st) && SideOf(st) == WorkerSide
    ensures SocketInv(Next(s, st))
  {
    if st.LockSocket? || st.UnlockSocket? {
      SocketHandedOver(s, st);
    } else if st.TakeSnapshot? || st.Read? || st.ReadFail? {
      SocketRead(s, st);
    } else {
      SocketUntouched(s, st);
    }
  }

  lemma SocketPool(s: State, st: Step)
    requires StageInv(s) && SocketInv(s) && Enabled(s, st) && SideOf(st) == PoolSide
    ensures SocketInv(Next(s, st))
  {
  }

  // ---------------------------------------------------------------- following the witness

  /** Where the witness for connection `c` is after a step. */
  function Follow(s: State, st: Step, c: ConnId, x: Witness): (y: Witness)
    requires c < |s.conns| && Shows(s, c, x)
  {
    match x
    case PendingEdge => if st.Collect? && st.c == c && st.p < |s.pollers| then InBatch(st.p, |s.pollers[st.p].batch|) else x
    case InBatch(p, i) => 
      if st == Mark(p) then (if i == 0 then AboutToEnqueue(p) else InBatch(p, i - 1))
      else if st == TakeHangup(p) && i > 0 then InBatch(p, i - 1)
      else x
    case AboutToEnqueue(p) => if st == Hand(p) then BeingPushed(p) else x
    case BeingPushed(e) => if st == PoolStep(P.EnqPush(e)) then Queued(|s.pool.queue|) else x
    case Queued(i) =>
      if st.PoolStep? && st.st.Take? then (if i == 0 then BeforeSnapshot(st.st.w) else Queued(i - 1)) else x
    case BeforeSnapshot(w) => x
  }

  /** The read is bounded by a snapshot taken now, or the edge had nothing behind it. */
  predicate Spends(s: State, st: Step, c: ConnId, x: Witness)
    requires c < |s.conns|
  {
    || (x.BeforeSnapshot? && st == TakeSnapshot(x.w))
    || (x.PendingEdge? && st.Collect? && st.c == c && s.conns[c].unread == 0 && !s.conns[c].hung)
  }

  lemma FollowAcceptor(s: State, st: Step, c: ConnId, x: Witness)
    requires PoolInv(s) && StageInv(s) && BatchInv(s) && HomeInv(s)
    requires Enabled(s, st) && SideOf(st) == AcceptorSide && c < |s.conns| && Shows(s, c, x) && !Spends(s, st, c, x)
    ensures |Next(s, st).conns| == |s.conns| && Shows(Next(s, st), c, Follow(s, st, c, x))
  {
  }

  lemma FollowMark(s: State, p: nat, c: ConnId, x: Witness)
    requires Enabled(s, Mark(p)) && c < |s.conns| && Shows(s, c, x)
    ensures |Next(s, Mark(p)).conns| == |s.conns| && Shows(Next(s, Mark(p)), c, Follow(s, Mark(p), c, x))
  {
  }

  lemma FollowPoller(s: State, st: Step, c: ConnId, x: Witness)
    requires BatchInv(s) && HomeInv(s) && c < |s.conns| && !s.conns[c].hung
    requires Enabled(s, st) && SideOf(st) == PollerSide && !st.Mark? && Shows(s, c, x)
    requires !Spends(s, st, c, x)
    ensures |Next(s, st).conns| == |s.conns| && Shows(Next(s, st), c, Follow(s, st, c, x))
  {
    var t := Next(s, st);
    assert t.stages == s.stages && |t.conns| == |s.conns| && t.conns[c].kind == s.conns[c].kind;
    if st.Hand? {
      FollowHand(s, st.p, c, x);
    }
  }

  lemma FollowHand(s: State, p: nat, c: ConnId, x: Witness)
    requires BatchInv(s) && Enabled(s, Hand(p)) && c < |s.conns| && !s.conns[c].hung && Shows(s, c, x)
    ensures Shows(Next(s, Hand(p)), c, Follow(s, Hand(p), c, x))
  {
  }

  lemma FollowRemover(s: State, st: Step, c: ConnId, x: Witness)
    requires BatchInv(s) && Enabled(s, st) && SideOf(st) == RemoverSide && c < |s.conns| && !s.conns[c].hung
    requires Shows(s, c, x)
    ensures |Next(s, st).conns| == |s.conns| && Shows(Next(s, st), c, Follow(s, st, c, x))
  {
    var t := Next(s, st);
    assert |t.conns| == |s.conns| && t.conns[c] == s.conns[c] && t.stages == s.stages;
    if st.HandClosed? {
      FollowHandClosed(s, st.p, c, x);
    } else {
      assert t.pool == s.pool;
    }
  }

  lemma FollowHandClosed(s: State, p: nat, c: ConnId, x: Witness)
    requires BatchInv(s) && Enabled(s, HandClosed(p)) && c < |s.conns| && !s.conns[c].hung && Shows(s, c, x)
    ensures Shows(Next(s, HandClosed(p)), c, Follow(s, HandClosed(p), c, x))
  {
  }

  lemma FollowWorker(s: State, st: Step, c: ConnId, x: Witness)
    requires Enabled(s, st) && SideOf(st) == WorkerSide && c < |s.conns| && Shows(s, c, x) && !Spends(s, st, c, x)
    ensures |Next(s, st).conns| == |s.conns| && Shows(Next(s, st), c, Follow(s, st, c, x))
  {
    if x.BeforeSnapshot? {
      FollowStage(s, st, c, x);
    } else {
      FollowPast(s, st, c, x);
    }
  }

  lemma FollowStage(s: State, st: Step, c: ConnId, x: Witness)
    requires Enabled(s, st) && SideOf(st) == WorkerSide && c < |s.conns| && Shows(s, c, x) && !Spends(s, st, c, x)
    requires x.BeforeSnapshot?
    ensures |Next(s, st).conns| == |s.conns| && Shows(Next(s, st), c, x)
  {
  }

  lemma FollowPast(s: State, st: Step, c: ConnId, x: Witness)
    requires Enabled(s, st) && SideOf(st) == WorkerSide && c < |s.conns| && Shows(s, c, x) && !x.BeforeSnapshot?
    ensures |Next(s, st).conns| == |s.conns| && Shows(Next(s, st), c, Follow(s, st, c, x))
  {
    var t := Next(s, st);
    assert t.pool == s.pool && t.pollers == s.pollers && |t.conns| == |s.conns|;
    assert t.conns[c].kind == s.conns[c].kind && t.conns[c].edge == s.conns[c].edge;
  }

  lemma FollowTake(s: State, w: nat, c: ConnId, x: Witness)
    requires PoolInv(s) && StageInv(s) && Enabled(s, PoolStep(P.Take(w))) && c < |s.conns| && Shows(s, c, x)
    ensures |Next(s, PoolStep(P.Take(w))).conns| == |s.conns| && Shows(Next(s, PoolStep(P.Take(w))), c, Follow(s, PoolStep(P.Take(w)), c, x))
  {
  }

  lemma FollowPush(s: State, e: nat, c: ConnId, x: Witness)
    requires Enabled(s, PoolStep(P.EnqPush(e))) && c < |s.conns| && Shows(s, c, x)
    ensures |Next(s, PoolStep(P.EnqPush(e))).conns| == |s.conns| && Shows(Next(s, PoolStep(P.EnqPush(e))), c, Follow(s, PoolStep(P.EnqPush(e)), c, x))
  {
  }

  lemma FollowPool(s: State, st: Step, c: ConnId, x: Witness)
    requires PoolInv(s) && StageInv(s) && Enabled(s, st) && SideOf(st) == PoolSide
    requires !(st.PoolStep? && (st.st.EnqPush? || st.st.Take?)) && c < |s.conns| && Shows(s, c, x) && !Spends(s, st, c, x)
    ensures |Next(s, st).conns| == |s.conns| && Shows(Next(s, st), c, Follow(s, st, c, x))
  {
    var t := Next(s, st);
    CallsKept(s.pool, if st.PoolStep? then st.st else if st.SpuriousWake? then P.Spurious(st.w) else P.Finish(st.w));
    assert t.conns == s.conns && t.pollers == s.pollers;
    assert st.Finish? ==> s.stages[st.w] == Returned;
  }

  /** Apart from push and pop, the pool moves nothing between calls and queue. */
  lemma CallsKept(pool: P.State, q: P.Step)
    requires P.Enabled(pool, q) && !q.EnqPush? && !q.Take? && !q.CallEnqueue?
    ensures var t := P.Next(pool, q);
            && t.queue == pool.queue && |t.enqs| == |pool.enqs|
            && forall e, c :: 0 <= e < |pool.enqs| && (pool.enqs[e] == P.WantPush(c) || pool.enqs[e] == P.Pushing(c)) ==>
                 t.enqs[e] == P.WantPush(c) || t.enqs[e] == P.Pushing(c)
  {
  }

  lemma LeftBehindReader(s: State, st: Step, c: ConnId)
    requires StageInv(s) && SocketInv(s) && Enabled(s, st) && SideOf(st) == WorkerSide && c < |s.conns|
    requires Next(s, st).conns[c].unread > Claimed(Next(s, st), c) && !Next(s, st).conns[c].failed
    ensures s.conns[c].unread > Claimed(s, c)
  {
    if st.LockSocket? || st.UnlockSocket? || st.Read? || st.TakeSnapshot? {
      LeftBehindHolder(s, st, c);
    } else {
      assert Next(s, st).conns[c].holder == s.conns[c].holder && Next(s, st).conns[c].unread == s.conns[c].unread;
    }
  }

  lemma LeftBehindHolder(s: State, st: Step, c: ConnId)
    requires StageInv(s) && SocketInv(s) && Enabled(s, st) && c < |s.conns|
    requires st.LockSocket? || st.UnlockSocket? || st.Read? || st.TakeSnapshot?
    requires Next(s, st).conns[c].unread > Claimed(Next(s, st), c)
    ensures s.conns[c].unread > Claimed(s, c)
  {
  }

  lemma LeftBehindOthers(s: State, st: Step, c: ConnId)
    requires PoolInv(s) && StageInv(s) && SocketInv(s) && Enabled(s, st) && SideOf(st) != WorkerSide && c < |s.conns|
    requires Next(s, st).conns[c].unread > Claimed(Next(s, st), c)
    ensures (st.Arrive? && st.c == c) || s.conns[c].unread > Claimed(s, c)
  {
    match SideOf(st)
    case AcceptorSide =>
    case PoolSide => LeftBehindPool(s, st, c);
    case _ => LeftBehindPollers(s, st, c);
  }

  lemma LeftBehindPool(s: State, st: Step, c: ConnId)
    requires PoolInv(s) && StageInv(s) && SocketInv(s) && Enabled(s, st) && SideOf(st) == PoolSide && c < |s.conns|
    requires Next(s, st).conns[c].unread > Claimed(Next(s, st), c)
    ensures s.conns[c].unread > Claimed(s, c)
  {
    var t := Next(s, st);
    assert t.conns == s.conns;
  }

  lemma LeftBehindPollers(s: State, st: Step, c: ConnId)
    requires StageInv(s) && SocketInv(s) && Enabled(s, st) && c < |s.conns|
    requires SideOf(st) == PollerSide || SideOf(st) == RemoverSide
    requires Next(s, st).conns[c].unread > Claimed(Next(s, st), c)
    ensures s.conns[c].unread > Claimed(s, c)
  {
    var t := Next(s, st);
    assert t.stages == s.stages && |t.conns| == |s.conns| && t.conns[c].holder == s.conns[c].holder;
    assert t.conns[c].unread <= s.conns[c].unread;
  }

  /** Except for an arrival and the snapshot itself, no step leaves more behind than was left. */
  lemma LeftBehind(s: State, st: Step, c: ConnId)
    requires PoolInv(s) && StageInv(s) && SocketInv(s) && Enabled(s, st) && c < |s.conns|
    requires Next(s, st).conns[c].unread > Claimed(Next(s, st), c) && !Next(s, st).conns[c].failed
    ensures (st.Arrive? && st.c == c) || s.conns[c].unread > Claimed(s, c)
  {
    if SideOf(st) == WorkerSide {
      LeftBehindReader(s, st, c);
    } else {
      LeftBehindOthers(s, st, c);
    }
  }

  lemma FollowStep(s: State, st: Step, c: ConnId, x: Witness)
    requires Inv(s) && Enabled(s, st) && c < |s.conns| && !s.conns[c].hung && Shows(s, c, x) && !Spends(s, st, c, x)
    ensures |Next(s, st).conns| == |s.conns| && Shows(Next(s, st), c, Follow(s, st, c, x))
  {
    match SideOf(st)
    case AcceptorSide => FollowAcceptor(s, st, c, x);
    case PollerSide => if st.Mark? { FollowMark(s, st.p, c, x); } else { FollowPoller(s, st, c, x); }
    case RemoverSide => FollowRemover(s, st, c, x);
    case WorkerSide => FollowWorker(s, st, c, x);
    case PoolSide =>
      if st.PoolStep? && st.st.Take? {
        FollowTake(s, st.st.w, c, x);
      } else if st.PoolStep? && st.st.EnqPush? {
        FollowPush(s, st.st.e, c, x);
      } else {
        FollowPool(s, st, c, x);
      }
  }

  /** When the witness is spent, nothing is left behind. */
  lemma SpentLeavesNothing(s: State, st: Step, c: ConnId, x: Witness)
    requires StageInv(s) && SocketInv(s) && Enabled(s, st) && c < |s.conns| && !s.conns[c].hung && Shows(s, c, x) && Spends(s, st, c, x)
    ensures Next(s, st).conns[c].unread <= Claimed(Next(s, st), c)
  {
  }

  lemma NoStallStep(s: State, st: Step)
    requires Inv(s) && Enabled(s, st)
    ensures NoStall(Next(s, st))
  {
    var t := Next(s, st);
    forall c | 0 <= c < |t.conns| && t.conns[c].home.Some? && Healthy(t.conns[c]) && t.conns[c].unread > Claimed(t, c)
      ensures WillBeRead(t, c)
    {
      if (st.Arrive? || st.Register?) && st.c == c {
        assert Shows(t, c, PendingEdge);
      } else {
        NoStallFor(s, st, c);
      }
    }
  }

  lemma NoStallFor(s: State, st: Step, c: ConnId)
    requires Inv(s) && Enabled(s, st) && c < |s.conns| == |Next(s, st).conns|
    requires !((st.Arrive? || st.Register?) && st.c == c)
    requires var t := Next(s, st);
             t.conns[c].home.Some? && Healthy(t.conns[c]) && t.conns[c].unread > Claimed(t, c)
    ensures WillBeRead(Next(s, st), c)
  {
    HomeFixed(s, st, c);
    LeftBehind(s, st, c);
    var x :| Shows(s, c, x);
    if Spends(s, st, c, x) {
      SpentLeavesNothing(s, st, c, x);
    } else {
      FollowStep(s, st, c, x);
    }
  }

  lemma HomeFixed(s: State, st: Step, c: ConnId)
    requires Enabled(s, st) && c < |s.conns| && !(st.Register? && st.c == c)
    ensures |Next(s, st).conns| == |s.conns| && Next(s, st).conns[c].home == s.conns[c].home
    ensures Healthy(Next(s, st).conns[c]) ==> Healthy(s.conns[c])
  {
    var t := Next(s, st);
    match SideOf(st)
    case PoolSide => assert t.conns == s.conns;
    case WorkerSide => assert |t.conns| == |s.conns| && t.conns[c].home == s.conns[c].home;
    case PollerSide => assert |t.conns| == |s.conns| && t.conns[c].home == s.conns[c].home;
    case RemoverSide => assert |t.conns| == |s.conns| && t.conns[c].home == s.conns[c].home;
    case AcceptorSide => assert |t.conns| == |s.conns| && t.conns[c].home == s.conns[c].home;
  }

  lemma SizesStep(s: State, st: Step)
    requires Enabled(s, st)
    ensures |Next(s, st).stages| == |s.stages| && |Next(s, st).pollers| == |s.pollers|
  {
  }

  /** Stages, task names and socket mutexes, whoever moves. */
  lemma ThreadsStep(s: State, st: Step)
    requires Inv(s) && Enabled(s, st)
    ensures StageInv(Next(s, st)) && TaskNamesInv(Next(s, st)) && SocketInv(Next(s, st))
  {
    match SideOf(st)
    case AcceptorSide => StageAcceptor(s, st); TaskNamesAcceptor(s, st); SocketAcceptor(s, st);
    case WorkerSide => StageWorker(s, st); TaskNamesWorker(s, st); SocketWorker(s, st);
    case PoolSide => StagePool(s, st); TaskNamesPool(s, st); SocketPool(s, st);
    case _ => PollersStep(s, st);
  }

  lemma PollersStep(s: State, st: Step)
    requires Inv(s) && Enabled(s, st) && (SideOf(st) == PollerSide || SideOf(st) == RemoverSide)
    ensures StageInv(Next(s, st)) && TaskNamesInv(Next(s, st)) && SocketInv(Next(s, st))
  {
    if SideOf(st) == PollerSide {
      StagePoller(s, st);
      TaskNamesPoller(s, st);
      SocketPoller(s, st);
    } else {
      StageRemover(s, st);
      TaskNamesRemover(s, st);
      SocketRemover(s, st);
    }
  }

  lemma InvStep(s: State, st: Step)
    requires Inv(s) && Enabled(s, st)
    ensures Inv(Next(s, st))
    ensures |Next(s, st).stages| == |s.stages| && |Next(s, st).pollers| == |s.pollers|
  {
    SizesStep(s, st);
    ThreadsStep(s, st);
    PoolPreserved(s, st);
    BatchPreserved(s, st);
    HomePreserved(s, st);
    NoStallStep(s, st);
  }

  lemma {:induction false} InvRun(s: State, steps: seq<Step>)
    requires Inv(s) && Legal(s, steps)
    ensures var t := Exec(s, steps);
            Inv(t) && |t.stages| == |s.stages| && |t.pollers| == |s.pollers|
    decreases |steps|
  {
    if steps == [] {
    } else {
      var t := Next(s, steps[0]);
      InvStep(s, steps[0]);
      InvRun(t, steps[1..]);
    }
  }

  lemma ReachableInv(workers: nat, pollers: nat, s: State)
    requires Reachable(workers, pollers, s)
    ensures Inv(s) && |s.stages| == workers && |s.pollers| == pollers
  {
    var arrived, interrupts, spurious, steps :|
      var s0 := Init(workers, pollers, arrived, interrupts, spurious);
      Legal(s0, steps) && Exec(s0, steps) == s;
    InitInv(workers, pollers, arrived, interrupts, spurious);
    InvRun(Init(workers, pollers, arrived, interrupts, spurious), steps);
  }
}
