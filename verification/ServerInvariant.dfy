/** The invariant of ServerMachine: the core, who is where, batches, tasks, callbacks, mutexes. */
module ServerInvariant {
  import opened Common
  import opened ServerMachine
  import opened ServerCore
  import opened ServerCoreProof

  /** The section and the threads agree on who is inside, and closing everything starts only
      when nobody else is at work. */
  ghost predicate PlacesInv(s: State) {
    && |s.core.interest| == |s.pollers|
    && (s.acceptor == AInside <==> AcceptorInside(s.section))
    && (forall p :: 0 <= p < |s.pollers| ==> (s.pollers[p].PInside? <==> RemoverInside(s.section) && s.section.p == p))
    && (RemoverInside(s.section) ==> s.section.p < |s.pollers|)
    && (s.closer == CInside <==> CloserInside(s.section))
    && (s.closer == CDone <==> s.section == Finished)
    && (s.closer != CIdle ==> s.acceptor == AIdle && forall p :: 0 <= p < |s.pollers| ==> s.pollers[p] == PWait([]))
  }

  /** An entry of a batch: listed by this poller and not yet closed. */
  predicate Live(core: Core, p: PollerId, c: ConnId) {
    Listed(core, p, c) && core.conns[c].kind != Closed
  }

  /** What poller `p` has in hand is live, and each connection only once. */
  ghost predicate BatchOk(core: Core, at: Section, p: PollerId, pc: PollerPc) {
    && (forall i :: 0 <= i < |pc.batch| ==> Live(core, p, pc.batch[i].c))
    && (forall i, j :: 0 <= i < j < |pc.batch| ==> pc.batch[i].c != pc.batch[j].c)
    && (pc.PWantQueue? || pc.PPush? || pc.PWantReg? ==> Live(core, p, pc.c) && !InBatch(pc.batch, pc.c))
    && (Unlisting(at) && at.p == p ==> !InBatch(pc.batch, at.c))
  }

  ghost predicate BatchInv(s: State) {
    forall p :: 0 <= p < |s.pollers| ==> BatchOk(s.core, s.section, p, s.pollers[p])
  }

  // ---------------------------------------------------------------- tasks and callbacks

  predicate TaskOk(core: Core, task: Task) {
    task.c < |core.conns| && task.tag != Blank && Rank(task.tag) <= Rank(core.conns[task.c].kind)
  }

  /** Whoever is about to push a task has made its connection ready for it. */
  ghost predicate TaskInv(s: State) {
    && (forall i :: 0 <= i < |s.queue| ==> TaskOk(s.core, s.queue[i]))
    && (forall k :: 0 <= k < |s.started| ==> TaskOk(s.core, s.started[k]))
    && (forall p :: 0 <= p < |s.pollers| && (s.pollers[p].PWantQueue? || s.pollers[p].PPush?) ==>
          TaskOk(s.core, Task(s.pollers[p].c, Data)))
  }

  /** The callback chosen for a task, given what it was enqueued for and what was read. */
  predicate OutcomeOk(tag: Kind, o: Outcome) {
    && (o.call == DataEvent <==> o.r1 == Data)
    && (o.call == NewConnectionEvent <==> o.r2 == New)
    && (o.call == ConnectionClosedEvent <==> o.r3 == Closed)
    && (tag == Data ==> o.call == DataEvent || o.call == ConnectionClosedEvent)
    && (tag == Closed ==> o.call == ConnectionClosedEvent)
    && (tag == New ==> (o.call == NoCall <==> o.r1 == New && o.r2 == Data && o.r3 == Data))
  }

  /** What was read lies between the tag and the current kind. */
  predicate SeenOk(core: Core, task: Task, o: Outcome) {
    && task.c < |core.conns|
    && Rank(task.tag) <= Rank(o.r1) <= Rank(o.r2) <= Rank(o.r3) <= Rank(core.conns[task.c].kind)
  }

  predicate Testing(pc: WorkerPc) {
    pc.WTest1? || pc.WTest2? || pc.WTest3?
  }

  /** What a worker has read so far lies between its tag and the current kind. */
  predicate TestOk(core: Core, started: seq<Task>, pc: WorkerPc) {
    && (pc.WTest1? || pc.WTest2? || pc.WTest3? || pc.WCallback? || pc.WWantSocket? || pc.WInSocket? ==> pc.k < |started|)
    && (pc.WWantSocket? || pc.WInSocket? ==> pc.c < |core.conns|)
    && (pc.WTest2? ==>
          var t := started[pc.k];
          t.c < |core.conns| && pc.r1 != Data && Rank(t.tag) <= Rank(pc.r1) <= Rank(core.conns[t.c].kind))
    && (pc.WTest3? ==>
          var t := started[pc.k];
          t.c < |core.conns| && pc.r1 != Data && pc.r2 != New
          && Rank(t.tag) <= Rank(pc.r1) <= Rank(pc.r2) <= Rank(core.conns[t.c].kind))
  }

  ghost predicate CallbackInv(s: State) {
    && (forall w :: 0 <= w < |s.workers| ==> TestOk(s.core, s.started, s.workers[w]))
    && (forall w :: 0 <= w < |s.workers| && Testing(s.workers[w]) ==> s.workers[w].k !in s.outcomes)
    && (forall v, w :: 0 <= v < w < |s.workers| && Testing(s.workers[v]) && Testing(s.workers[w]) ==>
          s.workers[v].k != s.workers[w].k)
    && (forall k :: k in s.outcomes ==> k < |s.started| && OutcomeOk(s.started[k].tag, s.outcomes[k]))
    && (forall k :: k in s.outcomes && k < |s.started| ==> SeenOk(s.core, s.started[k], s.outcomes[k]))
  }

  // ---------------------------------------------------------------- mutexes

  /** Two different threads never hold the queue mutex, or one socket mutex. */
  ghost predicate QueueMutexInv(s: State) {
    && (HoldsInside(s.section, QueueMutex) ==>
          && (forall p :: 0 <= p < |s.pollers| ==> !s.pollers[p].PPush?)
          && (forall w :: 0 <= w < |s.workers| ==> !s.workers[w].WTake?))
    && (forall p, q :: 0 <= p < q < |s.pollers| && s.pollers[p].PPush? ==> !s.pollers[q].PPush?)
    && (forall p, w :: 0 <= p < |s.pollers| && 0 <= w < |s.workers| && s.pollers[p].PPush? ==> !s.workers[w].WTake?)
    && (forall v, w :: 0 <= v < w < |s.workers| && s.workers[v].WTake? ==> !s.workers[w].WTake?)
  }

  ghost predicate SocketMutexInv(s: State) {
    && (forall w, c :: 0 <= w < |s.workers| && HoldsWorker(s.workers[w], SocketMutex(c)) ==>
          !HoldsInside(s.section, SocketMutex(c)))
    && (forall v, w, c :: 0 <= v < w < |s.workers| && HoldsWorker(s.workers[v], SocketMutex(c)) ==>
          !HoldsWorker(s.workers[w], SocketMutex(c)))
  }

  ghost predicate Inv(s: State) {
    && CoreInv(s.core, s.section) && PlacesInv(s) && BatchInv(s) && TaskInv(s) && CallbackInv(s)
    && QueueMutexInv(s) && SocketMutexInv(s)
  }
}
