/**
  The way of a byte through the server, as a transition system: it arrives at a connection, an
  edge becomes pending, the connection's poller collects the edge, marks the connection and
  enqueues it, a pool worker dispatches it to the data callback, and the callback reads
  what FIONREAD reported under the connection's socket mutex.  Any connection may hang up, and is
  then removed and closed under the registry mutex; any read may fail.

  Any number of connections, pollers and workers.  The pool is the machine of PoolMachine, in
  which poller p is the enqueuing thread p and the acceptor is the last enqueuing thread.  The
  handler is the plain TCP one, the callback is one that peeks and then calls receiveData.  A
  call still under way for a connection that has been closed finds nothing there.
*/
module FlowMachine {
  import opened Common
  import P = PoolMachine

  datatype EventKind = NewConnection | IncomingData | ClosedConnection

  /** `unread` bytes lie in the kernel buffer; `edge` is the pending edge-triggered event;
      `home` is the poller whose interest set holds the connection; `holder` is the worker
      that has locked the socket mutex.  `hung` says that the peer has hung up, `closed` that the
      server has closed the descriptor, and `failed`, which is history, that a read has failed. */
  datatype Conn = Conn(
    unread: nat,
    edge: bool,
    home: Option<nat>,
    kind: EventKind,
    holder: Option<nat>,
    hung: bool,
    closed: bool,
    failed: bool)

  /** An entry of an epoll_wait batch. */
  datatype Entry = Entry(conn: ConnId, hangup: bool)

  datatype PollerPc =
    | Waiting(batch: seq<Entry>)  // inside epoll_wait, `batch` is filled so far
    | Serving(batch: seq<Entry>)  // entries still to handle
    | Marked(conn: ConnId, batch: seq<Entry>)  // kind written, about to enqueue
    | WantReg(conn: ConnId, batch: seq<Entry>)  // a hang-up entry: about to lock the registry
    // in removeSocket, with the registry mutex: about to write the kind, to delete from epoll,
    // to close, to enqueue; and with the enqueuing under way
    | Closing(conn: ConnId, batch: seq<Entry>)
    | Deleting(conn: ConnId, batch: seq<Entry>)
    | Shutting(conn: ConnId, batch: seq<Entry>)
    | Submitting(conn: ConnId, batch: seq<Entry>)
    | Leaving(batch: seq<Entry>)

  datatype AcceptorPc = Idle | Registered(conn: ConnId)  // added to epoll, about to enqueue

  datatype Stage =
    | NoTask
    | Test1(conn: ConnId)       // about to compare the kind with IncomingData
    | Test2(conn: ConnId)       // about to compare it with NewConnection
    | Test3(conn: ConnId)       // about to compare it with ClosedConnection
    | Peek(conn: ConnId)        // in the data callback, before its own FIONREAD
    | WantSocket(conn: ConnId)  // about to lock the socket mutex
    | Snapshot(conn: ConnId)    // holds it, before the FIONREAD that bounds the read
    | Reading(conn: ConnId, left: nat)
    | Release(conn: ConnId)     // read loop done, mutex still held
    | Returned

  /** `interrupts` and `spurious` say how many EINTR results and spurious wakeups are still to
      come; both are arbitrary at the start.  `told` is history: the connections whose closed callback
      has been chosen. */
  datatype State = State(
    pool: P.State,
    conns: seq<Conn>,
    pollers: seq<PollerPc>,
    acceptor: AcceptorPc,
    stages: seq<Stage>,
    interrupts: nat,
    spurious: nat,
    told: set<ConnId>)

  datatype Step =
    | Arrive(c: ConnId, n: nat)
    | HangUp(c: ConnId)
    | Register(c: ConnId, p: nat)
    | Submit
    | Collect(p: nat, c: ConnId)
    | Deliver(p: nat)
    | Mark(p: nat)
    | Hand(p: nat)
    | Rest(p: nat)
    | TakeHangup(p: nat)
    | LockRegistry(p: nat)
    | WriteClosed(p: nat)
    | Delete(p: nat)
    | Close(p: nat)
    | HandClosed(p: nat)
    | Leave(p: nat)
    | PoolStep(st: P.Step)
    | SpuriousWake(w: nat)
    | Test(w: nat)
    | PeekSize(w: nat)
    | LockSocket(w: nat)
    | TakeSnapshot(w: nat)
    | Read(w: nat, n: nat)
    | Interrupt(w: nat)
    | ReadFail(w: nat)
    | WouldBlock(w: nat)
    | EndRead(w: nat)
    | UnlockSocket(w: nat)
    | Finish(w: nat)

  /** Bytes may already have arrived at connections that are not registered yet. */
  function Init(workers: nat, pollers: nat, arrived: seq<nat>, interrupts: nat, spurious: nat): (t: State) {
    State(P.Init(workers, pollers + 1),
          seq(|arrived|, i requires 0 <= i < |arrived| => Conn(arrived[i], false, None, NewConnection, None, false, false, false)),
          seq(pollers, _ => Waiting([])), Idle, seq(workers, _ => NoTask), interrupts, spurious, {})
  }

  /** The pool's own steps whose effect stays inside the pool, and the pop. */
  predicate InsidePool(st: P.Step) {
    st.EnqLock? || st.EnqPush? || st.EnqNotify? || st.LoopTest? || st.WorkerLock? || st.Evaluate? || st.Block? || st.Take?
  }

  predicate InBatch(batch: seq<Entry>, c: ConnId) {
    exists i :: 0 <= i < |batch| && batch[i].conn == c
  }

  predicate EnqueuerOutside(s: State, e: nat) {
    e < |s.pool.enqs| && s.pool.enqs[e] == P.Outside
  }

  predicate InRegistry(pc: PollerPc) {
    pc.Closing? || pc.Deleting? || pc.Shutting? || pc.Submitting? || pc.Leaving?
  }

  /** A poller in removeSocket, with the connection it removes. */
  predicate Removing(pc: PollerPc) {
    pc.WantReg? || pc.Closing? || pc.Deleting? || pc.Shutting? || pc.Submitting?
  }

  /** Nobody is inside the registry mutex: the acceptor holds it until its enqueuing is done. */
  predicate RegistryFree(s: State) {
    && s.acceptor == Idle && EnqueuerOutside(s, |s.pollers|)
    && forall p :: 0 <= p < |s.pollers| ==> !InRegistry(s.pollers[p])
  }

  predicate Enabled(s: State, st: Step) {
    match st
    // a peer that has hung up sends nothing more
    case Arrive(c, n) => c < |s.conns| && n > 0 && !s.conns[c].hung
    case HangUp(c) => c < |s.conns| && !s.conns[c].hung
    case Register(c, p) => c < |s.conns| && s.conns[c].home == None && p < |s.pollers| && RegistryFree(s)
    case Submit => s.acceptor.Registered? && EnqueuerOutside(s, |s.pollers|)
    // one epoll_wait reports a descriptor at most once
    case Collect(p, c) =>
      p < |s.pollers| && s.pollers[p].Waiting? && c < |s.conns| && s.conns[c].edge
      && s.conns[c].home == Some(p) && !InBatch(s.pollers[p].batch, c)
    case Deliver(p) => p < |s.pollers| && s.pollers[p].Waiting? && s.pollers[p].batch != []
    case Mark(p) =>
      p < |s.pollers| && s.pollers[p].Serving? && s.pollers[p].batch != [] && EnqueuerOutside(s, p)
      && !s.pollers[p].batch[0].hangup && s.pollers[p].batch[0].conn < |s.conns|
    case Hand(p) => p < |s.pollers| && s.pollers[p].Marked? && EnqueuerOutside(s, p)
    case Rest(p) => p < |s.pollers| && s.pollers[p] == Serving([]) && EnqueuerOutside(s, p)
    case TakeHangup(p) =>
      p < |s.pollers| && s.pollers[p].Serving? && s.pollers[p].batch != [] && EnqueuerOutside(s, p)
      && s.pollers[p].batch[0].hangup
    case LockRegistry(p) => p < |s.pollers| && s.pollers[p].WantReg? && RegistryFree(s)
    case WriteClosed(p) => p < |s.pollers| && s.pollers[p].Closing? && s.pollers[p].conn < |s.conns|
    case Delete(p) => p < |s.pollers| && s.pollers[p].Deleting? && s.pollers[p].conn < |s.conns|
    case Close(p) => p < |s.pollers| && s.pollers[p].Shutting? && s.pollers[p].conn < |s.conns|
    case HandClosed(p) => p < |s.pollers| && s.pollers[p].Submitting? && EnqueuerOutside(s, p)
    case Leave(p) => p < |s.pollers| && s.pollers[p].Leaving? && EnqueuerOutside(s, p)
    case PoolStep(q) => InsidePool(q) && P.Enabled(s.pool, q) && (q.Take? ==> q.w < |s.stages|)
    case SpuriousWake(w) => s.spurious > 0 && P.Enabled(s.pool, P.Spurious(w))
    case Test(w) => InStage(s, w) && (s.stages[w].Test1? || s.stages[w].Test2? || s.stages[w].Test3?)
    case PeekSize(w) => InStage(s, w) && s.stages[w].Peek?
    case LockSocket(w) => InStage(s, w) && s.stages[w].WantSocket? && ConnOf(s, w).holder == None
    case TakeSnapshot(w) => InStage(s, w) && s.stages[w].Snapshot?
    case Read(w, n) => InStage(s, w) && s.stages[w].Reading? && 0 < n <= s.stages[w].left && n <= ConnOf(s, w).unread
    case Interrupt(w) => InStage(s, w) && s.stages[w].Reading? && s.stages[w].left > 0 && s.interrupts > 0
    case ReadFail(w) => InStage(s, w) && s.stages[w].Reading? && s.stages[w].left > 0
    // nothing is there: the call would block, or the peer has closed
    case WouldBlock(w) => InStage(s, w) && s.stages[w].Reading? && s.stages[w].left > 0 && ConnOf(s, w).unread == 0
    case EndRead(w) => InStage(s, w) && s.stages[w].Reading? && s.stages[w].left == 0
    case UnlockSocket(w) => InStage(s, w) && s.stages[w].Release?
    case Finish(w) => w < |s.stages| && s.stages[w] == Returned && P.Enabled(s.pool, P.Finish(w))
  }

  /** Who takes a step: the network or the acceptor, a poller, a poller that removes a connection,
      a worker executing a task, or the pool underneath. */
  datatype Side = AcceptorSide | PollerSide | RemoverSide | WorkerSide | PoolSide

  function SideOf(st: Step): (side: Side) {
    match st
    case Arrive(_, _) => AcceptorSide
    case HangUp(_) => AcceptorSide
    case Register(_, _) => AcceptorSide
    case Submit => AcceptorSide
    case Collect(_, _) => PollerSide
    case Deliver(_) => PollerSide
    case Mark(_) => PollerSide
    case Hand(_) => PollerSide
    case Rest(_) => PollerSide
    case TakeHangup(_) => RemoverSide
    case LockRegistry(_) => RemoverSide
    case WriteClosed(_) => RemoverSide
    case Delete(_) => RemoverSide
    case Close(_) => RemoverSide
    case HandClosed(_) => RemoverSide
    case Leave(_) => RemoverSide
    case PoolStep(_) => PoolSide
    case SpuriousWake(_) => PoolSide
    case Finish(_) => PoolSide
    case _ => WorkerSide
  }

  /** Worker `w` executes a task for an existing connection. */
  predicate InStage(s: State, w: nat) {
    w < |s.stages| && s.stages[w] != NoTask && s.stages[w] != Returned && s.stages[w].conn < |s.conns|
  }

  function ConnOf(s: State, w: nat): (r: Conn)
    requires InStage(s, w)
  {
    s.conns[s.stages[w].conn]
  }

  function SetC(s: State, c: ConnId, conn: Conn): (t: State)
    requires c < |s.conns|
  {
    s.(conns := s.conns[c := conn])
  }

  function SetP(s: State, p: nat, pc: PollerPc): (t: State)
    requires p < |s.pollers|
  {
    s.(pollers := s.pollers[p := pc])
  }

  function SetS(s: State, w: nat, stage: Stage): (t: State)
    requires w < |s.stages|
  {
    s.(stages := s.stages[w := stage])
  }

  /** handleCallBackEvent: up to three comparisons, each reading the shared kind again. */
  function AfterTest(stage: Stage, kind: EventKind): (to: Stage)
    requires stage.Test1? || stage.Test2? || stage.Test3?
  {
    match stage
    case Test1(c) => if kind == IncomingData then Peek(c) else Test2(c)
    case Test2(c) => if kind == NewConnection then Returned else Test3(c)
    case Test3(c) => Returned
  }

  function NextAcceptor(s: State, st: Step): (t: State)
    requires Enabled(s, st) && SideOf(st) == AcceptorSide
  {
    match st
    case Arrive(c, n) =>
      var conn := s.conns[c];
      SetC(s, c, conn.(unread := conn.unread + n, edge := conn.edge || conn.home.Some?))
    case HangUp(c) =>
      var conn := s.conns[c];
      SetC(s, c, conn.(hung := true, edge := conn.edge || conn.home.Some?))
    case Register(c, p) =>
      var conn := s.conns[c];
      SetC(s, c, conn.(home := Some(p), edge := conn.unread > 0 || conn.hung, kind := NewConnection)).(acceptor := Registered(c))
    case Submit =>
      s.(acceptor := Idle, pool := P.Next(s.pool, P.CallEnqueue(|s.pollers|, s.acceptor.conn)))
  }

  function NextPoller(s: State, st: Step): (t: State)
    requires Enabled(s, st) && SideOf(st) == PollerSide
  {
    match st
    case Collect(p, c) =>
      // the kernel polls readiness again before it reports an edge
      var conn := s.conns[c];
      var taken := SetC(s, c, conn.(edge := false));
      if conn.unread > 0 || conn.hung then SetP(taken, p, Waiting(s.pollers[p].batch + [Entry(c, conn.hung)])) else taken
    case Deliver(p) => SetP(s, p, Serving(s.pollers[p].batch))
    case Mark(p) =>
      var c := s.pollers[p].batch[0].conn;
      SetP(SetC(s, c, s.conns[c].(kind := IncomingData)), p, Marked(c, s.pollers[p].batch[1..]))
    case Hand(p) =>
      SetP(s, p, Serving(s.pollers[p].batch)).(pool := P.Next(s.pool, P.CallEnqueue(p, s.pollers[p].conn)))
    case Rest(p) => SetP(s, p, Waiting([]))
  }

  function NextRemover(s: State, st: Step): (t: State)
    requires Enabled(s, st) && SideOf(st) == RemoverSide
  {
    match st
    case TakeHangup(p) => SetP(s, p, WantReg(s.pollers[p].batch[0].conn, s.pollers[p].batch[1..]))
    case LockRegistry(p) => SetP(s, p, Closing(s.pollers[p].conn, s.pollers[p].batch))
    case WriteClosed(p) =>
      var c := s.pollers[p].conn;
      SetP(SetC(s, c, s.conns[c].(kind := ClosedConnection)), p, Deleting(c, s.pollers[p].batch))
    case Delete(p) =>
      var c := s.pollers[p].conn;
      SetP(SetC(s, c, s.conns[c].(edge := false)), p, Shutting(c, s.pollers[p].batch))
    case Close(p) =>
      // what nobody has read is discarded
      var c := s.pollers[p].conn;
      SetP(SetC(s, c, s.conns[c].(closed := true, unread := 0)), p, Submitting(c, s.pollers[p].batch))
    case HandClosed(p) =>
      SetP(s, p, Leaving(s.pollers[p].batch)).(pool := P.Next(s.pool, P.CallEnqueue(p, s.pollers[p].conn)))
    case Leave(p) => SetP(s, p, Serving(s.pollers[p].batch))
  }

  function NextWorker(s: State, st: Step): (t: State)
    requires Enabled(s, st) && SideOf(st) == WorkerSide
  {
    match st
    case Test(w) =>
      var stage, kind := s.stages[w], ConnOf(s, w).kind;
      var t := SetS(s, w, AfterTest(stage, kind));
      if stage.Test3? && kind == ClosedConnection then t.(told := s.told + {stage.conn}) else t
    case PeekSize(w) => SetS(s, w, WantSocket(s.stages[w].conn))
    case LockSocket(w) =>
      var c := s.stages[w].conn;
      SetS(SetC(s, c, s.conns[c].(holder := Some(w))), w, Snapshot(c))
    case TakeSnapshot(w) => SetS(s, w, Reading(s.stages[w].conn, ConnOf(s, w).unread))
    case Read(w, n) =>
      var c := s.stages[w].conn;
      SetS(SetC(s, c, s.conns[c].(unread := s.conns[c].unread - n)), w, Reading(c, s.stages[w].left - n))
    case Interrupt(w) => s.(interrupts := s.interrupts - 1)
    case ReadFail(w) =>
      var c := s.stages[w].conn;
      SetS(SetC(s, c, s.conns[c].(failed := true)), w, Release(c))
    case WouldBlock(w) => SetS(s, w, Release(s.stages[w].conn))
    case EndRead(w) => SetS(s, w, Release(s.stages[w].conn))
    case UnlockSocket(w) =>
      var c := s.stages[w].conn;
      SetS(SetC(s, c, s.conns[c].(holder := None)), w, Returned)
  }

  function NextPool(s: State, st: Step): (t: State)
    requires Enabled(s, st) && SideOf(st) == PoolSide
  {
    match st
    case PoolStep(q) =>
      var t := s.(pool := P.Next(s.pool, q));
      if q.Take? && s.pool.queue != [] then SetS(t, q.w, Test1(s.pool.queue[0])) else t
    case SpuriousWake(w) => s.(spurious := s.spurious - 1, pool := P.Next(s.pool, P.Spurious(w)))
    case Finish(w) => SetS(s, w, NoTask).(pool := P.Next(s.pool, P.Finish(w)))
  }

  function Next(s: State, st: Step): (t: State)
    requires Enabled(s, st)
  {
    match SideOf(st)
    case AcceptorSide => NextAcceptor(s, st)
    case PollerSide => NextPoller(s, st)
    case RemoverSide => NextRemover(s, st)
    case WorkerSide => NextWorker(s, st)
    case PoolSide => NextPool(s, st)
  }

  predicate Legal(s: State, steps: seq<Step>)
    decreases |steps|
  {
    steps == [] || (Enabled(s, steps[0]) && Legal(Next(s, steps[0]), steps[1..]))
  }

  function Exec(s: State, steps: seq<Step>): (t: State)
    requires Legal(s, steps)
    decreases |steps|
  {
    if steps == [] then s else Exec(Next(s, steps[0]), steps[1..])
  }

  ghost predicate Reachable(workers: nat, pollers: nat, s: State) {
    exists arrived, interrupts, spurious, steps ::
      var s0 := Init(workers, pollers, arrived, interrupts, spurious);
      Legal(s0, steps) && Exec(s0, steps) == s
  }
}
