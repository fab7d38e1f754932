/**
  The connection registry and its threads as a transition system: one acceptor (the poller of
  the listening socket), any number of client pollers, any number of pool workers, and the
  thread that closes everything at the end.  One step is one lock, system call, field access
  or unlock; a mutex that is released right after an operation is released in the same step.

  The kernel is part of the state: the open descriptors with the connection each was accepted
  for, and the interest set of each poller.  Closing a descriptor removes it from all interest
  sets, and its number may be handed out again by the next accept.

  Whoever holds the registry mutex is inside the section, and `section` is where that thread
  is.  Who holds another mutex follows from the positions of the threads; taking one requires
  that no thread's position holds it.
*/
module ServerMachine {
  import opened Common

  type Fd = nat
  type PollerId = nat

  datatype Protocol = Tcp | Tls

  datatype Kind = Blank | New | Data | Closed

  /** `ssl` says that m_SSL is not null; `hadSsl` is history: it was not null when
      initConnection looked at it, which the constructor leaves to chance. */
  datatype Conn = Conn(fd: Fd, kind: Kind, handler: Option<PollerId>, ssl: bool, hadSsl: bool)

  /** A close call for connection `c`, and whose the descriptor was at that moment. */
  datatype CloseCall = CloseCall(c: ConnId, owner: Option<ConnId>)

  /** Connections, kernel and registry: `open` are the open descriptors, `interest` the pollers'
      interest sets, `store` is clientEventStores; `closes` and `inserted` are history. */
  datatype Core = Core(
    protocol: Protocol,
    conns: seq<Conn>,
    open: map<Fd, ConnId>,
    interest: seq<map<Fd, ConnId>>,
    store: map<Fd, ConnId>,
    closes: seq<CloseCall>,
    inserted: set<ConnId>)

  /** The thread inside the registry mutex, if any, and where it is. */
  datatype Section =
    | Nobody
    // the acceptor, in handleIOEvent
    | Accept
    | Convert(c: ConnId)
    | SetKind(c: ConnId)
    | InitConn(c: ConnId)
    | WantCert(c: ConnId)
    | GetCert(c: ConnId)
    | Handshake(c: ConnId)
    | FailClose(c: ConnId)
    | FailNull(c: ConnId)
    | WantSched(c: ConnId)
    | Advance(c: ConnId)
    | WantPoll(c: ConnId, p: PollerId)
    | EpollAdd(c: ConnId, p: PollerId)
    | SetHandler(c: ConnId, p: PollerId)
    | UnlockSched(c: ConnId)
    | Insert(c: ConnId)
    | WantQueue(c: ConnId)
    | PushNew(c: ConnId)
    | Leave
    // poller `p`, in removeSocket
    | SetClosed(p: PollerId, c: ConnId)
    | ReadHandler(p: PollerId, c: ConnId)
    | WantDelete(p: PollerId, c: ConnId, h: PollerId)
    | Delete(p: PollerId, c: ConnId, h: PollerId)
    | CloseConn(p: PollerId, c: ConnId)
    | WantSocket(p: PollerId, c: ConnId)
    | CloseFd(p: PollerId, c: ConnId)
    | NullSsl(p: PollerId, c: ConnId)
    | WantQueueClosed(p: PollerId, c: ConnId)
    | PushClosed(p: PollerId, c: ConnId)
    | Erase(p: PollerId, c: ConnId)
    | LeaveRemove(p: PollerId)
    // the closing thread, in closeAllClientSocket; `todo` are the map keys not visited yet
    | Visit(todo: set<Fd>)
    | WantSocketAll(c: ConnId, todo: set<Fd>)
    | CloseFdAll(c: ConnId, todo: set<Fd>)
    | NullSslAll(c: ConnId, todo: set<Fd>)
    | LeaveAll
    | Finished  // released for good: everything is closed

  datatype AcceptorPc = AIdle | AWantReg | AInside

  /** An entry of an epoll_wait batch. */
  datatype Entry = Entry(c: ConnId, hangup: bool)

  datatype PollerPc =
    | PWait(batch: seq<Entry>)   // inside epoll_wait
    | PServe(batch: seq<Entry>)  // entries still to handle
    | PWantQueue(c: ConnId, batch: seq<Entry>)  // a data entry, its kind already written
    | PPush(c: ConnId, batch: seq<Entry>)
    | PWantReg(c: ConnId, batch: seq<Entry>)  // a hang-up entry
    | PInside(batch: seq<Entry>)

  /** `k` numbers the started tasks; a worker remembers the kinds it has read so far.  A callback
      may use any connection `c`, not only the one of its task. */
  datatype WorkerPc =
    | WIdle
    | WWantQueue
    | WTake
    | WTest1(k: nat)
    | WTest2(k: nat, r1: Kind)
    | WTest3(k: nat, r1: Kind, r2: Kind)
    | WCallback(k: nat)
    | WWantSocket(k: nat, c: ConnId)
    | WInSocket(k: nat, c: ConnId)

  datatype CloserPc = CIdle | CWantReg | CInside | CDone

  /** `tag` is history: what it was enqueued for. */
  datatype Task = Task(c: ConnId, tag: Kind)

  datatype Callback = NewConnectionEvent | DataEvent | ConnectionClosedEvent | NoCall

  datatype Outcome = Outcome(r1: Kind, r2: Kind, r3: Kind, call: Callback)

  datatype State = State(
    core: Core,
    section: Section,
    index: nat,
    queue: seq<Task>,
    started: seq<Task>,
    outcomes: map<nat, Outcome>,
    acceptor: AcceptorPc,
    pollers: seq<PollerPc>,
    workers: seq<WorkerPc>,
    closer: CloserPc)

  /** Threads outside the section want it, pollers collect and serve, workers work, and the
      thread inside moves on.  The arguments resolve what a thread does not decide: whether a
      call succeeds, which descriptor accept returns, which event is reported, and so on. */
  datatype Step =
    | AStep
    | PStep(p: PollerId, fd: Fd, flag: bool, hup: bool)
    | WStep(w: nat, again: bool, c: ConnId)
    | CStep
    | Inside(ok: bool, fd: Fd, ssl: bool)

  function Init(protocol: Protocol, pollers: nat, workers: nat): (t: State) {
    State(Core(protocol, [], map[], seq(pollers, _ => map[]), map[], [], {}),
          Nobody, 0, [], [], map[], AIdle, seq(pollers, _ => PWait([])), seq(workers, _ => WIdle), CIdle)
  }

  // ---------------------------------------------------------------- mutexes

  datatype Lock =
    | RegMutex | CertMutex | SchedMutex | PollMutex(p: PollerId) | SocketMutex(c: ConnId) | QueueMutex

  predicate HoldsInside(at: Section, l: Lock) {
    match l
    case RegMutex => at != Nobody && at != Finished
    case CertMutex => at.GetCert?
    case SchedMutex => at.Advance? || at.WantPoll? || at.EpollAdd? || at.SetHandler? || at.UnlockSched?
    case PollMutex(p) => ((at.EpollAdd? || at.SetHandler?) && at.p == p) || (at.Delete? && at.h == p)
    case SocketMutex(c) => (at.CloseFd? || at.NullSsl? || at.CloseFdAll? || at.NullSslAll?) && at.c == c
    case QueueMutex => at.PushNew? || at.PushClosed?
  }

  predicate HoldsPoller(pc: PollerPc, l: Lock) {
    l == QueueMutex && pc.PPush?
  }

  predicate HoldsWorker(pc: WorkerPc, l: Lock) {
    match l
    case SocketMutex(c) => pc.WInSocket? && pc.c == c
    case QueueMutex => pc.WTake?
    case _ => false
  }

  function WantsInside(at: Section): (wanted: Option<Lock>) {
    match at
    case WantCert(_) => Some(CertMutex)
    case WantSched(_) => Some(SchedMutex)
    case WantPoll(_, p) => Some(PollMutex(p))
    case WantQueue(_) => Some(QueueMutex)
    case WantDelete(_, _, h) => Some(PollMutex(h))
    case WantSocket(_, c) => Some(SocketMutex(c))
    case WantQueueClosed(_, _) => Some(QueueMutex)
    case WantSocketAll(c, _) => Some(SocketMutex(c))
    case _ => None
  }

  function WantsPoller(pc: PollerPc): (wanted: Option<Lock>) {
    match pc
    case PWantQueue(_, _) => Some(QueueMutex)
    case PWantReg(_, _) => Some(RegMutex)
    case _ => None
  }

  function WantsWorker(pc: WorkerPc): (wanted: Option<Lock>) {
    match pc
    case WWantQueue => Some(QueueMutex)
    case WWantSocket(_, c) => Some(SocketMutex(c))
    case _ => None
  }

  ghost predicate Free(s: State, l: Lock) {
    && !HoldsInside(s.section, l)
    && (forall p :: 0 <= p < |s.pollers| ==> !HoldsPoller(s.pollers[p], l))
    && (forall w :: 0 <= w < |s.workers| ==> !HoldsWorker(s.workers[w], l))
  }

  ghost predicate MayTake(s: State, want: Option<Lock>) {
    want.Some? ==> Free(s, want.value)
  }

  // ---------------------------------------------------------------- effects on the core

  function AddConn(core: Core, fd: Fd, ssl: bool): (t: Core) {
    core.(conns := core.conns + [Conn(fd, Blank, None, ssl, false)], open := core.open[fd := |core.conns|])
  }

  function SetConn(core: Core, c: ConnId, conn: Conn): (t: Core)
    requires c < |core.conns|
  {
    core.(conns := core.conns[c := conn])
  }

  /** close(m_socketId): the number is free again and gone from every interest set. */
  function CloseOf(core: Core, c: ConnId): (t: Core)
    requires c < |core.conns|
  {
    var fd := core.conns[c].fd;
    core.(open := core.open - {fd},
          interest := seq(|core.interest|, p requires 0 <= p < |core.interest| => core.interest[p] - {fd}),
          closes := core.closes + [CloseCall(c, if fd in core.open then Some(core.open[fd]) else None)])
  }

  /** epoll_ctl ADD. */
  function ListConn(core: Core, c: ConnId, p: PollerId): (t: Core)
    requires c < |core.conns| && p < |core.interest|
  {
    core.(interest := core.interest[p := core.interest[p][core.conns[c].fd := c]])
  }

  /** epoll_ctl DEL. */
  function Unlist(core: Core, c: ConnId, p: PollerId): (t: Core)
    requires c < |core.conns| && p < |core.interest|
  {
    core.(interest := core.interest[p := core.interest[p] - {core.conns[c].fd}])
  }

  function StoreConn(core: Core, c: ConnId): (t: Core)
    requires c < |core.conns|
  {
    core.(store := core.store[core.conns[c].fd := c], inserted := core.inserted + {c})
  }

  function EraseConn(core: Core, c: ConnId): (t: Core)
    requires c < |core.conns|
  {
    core.(store := core.store - {core.conns[c].fd})
  }

  // ---------------------------------------------------------------- inside the section

  predicate Named(at: Section) {
    !at.Nobody? && !at.Accept? && !at.Leave? && !at.LeaveRemove? && !at.Visit? && !at.LeaveAll? && !at.Finished?
  }

  /** The system call at this position may have this result. */
  predicate Possible(core: Core, at: Section, ok: bool, fd: Fd) {
    && (Named(at) ==> at.c < |core.conns|)
    && match at
       case Nobody => false
       case Finished => false
       case Accept => ok ==> fd !in core.open
       case Advance(_) => |core.interest| > 0
       case EpollAdd(c, p) =>
         p < |core.interest| && (ok ==> core.conns[c].fd in core.open && core.conns[c].fd !in core.interest[p])
       case Delete(_, _, h) => h < |core.interest|
       case Visit(todo) => todo != {} ==> fd in todo && fd in core.store && core.store[fd] < |core.conns|
       case _ => true
  }

  function Effect(core: Core, at: Section, ok: bool, fd: Fd, ssl: bool): (t: Core)
    requires Possible(core, at, ok, fd)
  {
    match at
    case Accept => if ok then AddConn(core, fd, ssl) else core
    case SetKind(c) => SetConn(core, c, core.conns[c].(kind := New))
    case InitConn(c) => SetConn(core, c, core.conns[c].(hadSsl := core.conns[c].ssl))
    case GetCert(c) => SetConn(core, c, core.conns[c].(ssl := ok))
    case FailClose(c) => CloseOf(core, c)
    case FailNull(c) => SetConn(core, c, core.conns[c].(ssl := false))
    case EpollAdd(c, p) => if ok then ListConn(core, c, p) else core
    case SetHandler(c, p) => SetConn(core, c, core.conns[c].(handler := Some(p)))
    case Insert(c) => StoreConn(core, c)
    case SetClosed(_, c) => SetConn(core, c, core.conns[c].(kind := Closed))
    case Delete(_, c, h) => Unlist(core, c, h)
    case CloseConn(_, c) => if core.protocol == Tcp then CloseOf(core, c) else core
    case CloseFd(_, c) => CloseOf(core, c)
    case NullSsl(_, c) => SetConn(core, c, core.conns[c].(ssl := false))
    case Erase(_, c) => EraseConn(core, c)
    case Visit(todo) =>
      if todo == {} then core.(store := map[])
      else if core.protocol == Tcp then CloseOf(core, core.store[fd])
      else core
    case CloseFdAll(c, _) => CloseOf(core, c)
    case NullSslAll(c, _) => SetConn(core, c, core.conns[c].(ssl := false))
    case _ => core
  }

  /** Where the thread inside is afterwards; `next` is the poller whose turn it is. */
  function After(core: Core, at: Section, next: PollerId, ok: bool, fd: Fd): (to: Section)
    requires Possible(core, at, ok, fd)
  {
    match at
    case Nobody => Nobody
    case Accept => if ok then Convert(|core.conns|) else Leave
    case Convert(c) => if ok then SetKind(c) else Leave
    case SetKind(c) => InitConn(c)
    case InitConn(c) => if core.protocol == Tls && core.conns[c].ssl then WantCert(c) else WantSched(c)
    case WantCert(c) => GetCert(c)
    case GetCert(c) => if ok then Handshake(c) else FailClose(c)
    case Handshake(c) => if ok then WantSched(c) else FailClose(c)
    case FailClose(c) => FailNull(c)
    case FailNull(c) => WantSched(c)
    case WantSched(c) => Advance(c)
    case Advance(c) => WantPoll(c, next)
    case WantPoll(c, p) => EpollAdd(c, p)
    case EpollAdd(c, p) => if ok then SetHandler(c, p) else UnlockSched(c)
    case SetHandler(c, _) => UnlockSched(c)
    case UnlockSched(c) => Insert(c)
    case Insert(c) => WantQueue(c)
    case WantQueue(c) => PushNew(c)
    case PushNew(_) => Leave
    case Leave => Nobody
    case SetClosed(p, c) => ReadHandler(p, c)
    case ReadHandler(p, c) =>
      if core.conns[c].handler.Some? then WantDelete(p, c, core.conns[c].handler.value) else WantQueueClosed(p, c)
    case WantDelete(p, c, h) => Delete(p, c, h)
    case Delete(p, c, _) => CloseConn(p, c)
    case CloseConn(p, c) =>
      if core.protocol == Tls && core.conns[c].ssl then WantSocket(p, c) else WantQueueClosed(p, c)
    case WantSocket(p, c) => CloseFd(p, c)
    case CloseFd(p, c) => NullSsl(p, c)
    case NullSsl(p, c) => WantQueueClosed(p, c)
    case WantQueueClosed(p, c) => PushClosed(p, c)
    case PushClosed(p, c) => Erase(p, c)
    case Erase(p, _) => LeaveRemove(p)
    case LeaveRemove(_) => Nobody
    case Visit(todo) =>
      if todo == {} then LeaveAll
      else if core.protocol == Tls && core.conns[core.store[fd]].ssl then WantSocketAll(core.store[fd], todo - {fd})
      else Visit(todo - {fd})
    case WantSocketAll(c, todo) => CloseFdAll(c, todo)
    case CloseFdAll(c, todo) => NullSslAll(c, todo)
    case NullSslAll(_, todo) => Visit(todo)
    case LeaveAll => Finished
    case Finished => Finished
  }

  ghost predicate EnabledInside(s: State, ok: bool, fd: Fd) {
    && Possible(s.core, s.section, ok, fd)
    && MayTake(s, WantsInside(s.section))
    && (s.section.LeaveRemove? ==> s.section.p < |s.pollers|)
  }

  function NextIndex(s: State): (n: nat) {
    if |s.core.interest| > 0 then (s.index + 1) % |s.core.interest| else 0
  }

  function NextInside(s: State, ok: bool, fd: Fd, ssl: bool): (t: State)
    requires EnabledInside(s, ok, fd)
  {
    var t := s.(core := Effect(s.core, s.section, ok, fd, ssl),
                section := After(s.core, s.section, NextIndex(s), ok, fd));
    match s.section
    case Advance(_) => t.(index := NextIndex(s))
    case PushNew(c) => t.(queue := s.queue + [Task(c, New)])
    case PushClosed(_, c) => t.(queue := s.queue + [Task(c, Closed)])
    case Leave => t.(acceptor := AIdle)
    case LeaveRemove(p) => t.(pollers := s.pollers[p := PServe(s.pollers[p].batch)])
    case LeaveAll => t.(closer := CDone)
    case _ => t
  }

  // ---------------------------------------------------------------- outside the section

  /** A new connection is reported only while the pollers run. */
  ghost predicate EnabledA(s: State) {
    (s.acceptor == AIdle && s.closer == CIdle) || (s.acceptor == AWantReg && Free(s, RegMutex))
  }

  function NextA(s: State): (t: State)
    requires EnabledA(s)
  {
    if s.acceptor == AIdle then s.(acceptor := AWantReg)
    else s.(acceptor := AInside, section := Accept)
  }

  /** The batch already has an entry for `c`. */
  predicate InBatch(batch: seq<Entry>, c: ConnId) {
    exists i :: 0 <= i < |batch| && batch[i].c == c
  }

  ghost predicate EnabledP(s: State, p: PollerId, fd: Fd, flag: bool) {
    && p < |s.pollers| && p < |s.core.interest|
    && MayTake(s, WantsPoller(s.pollers[p]))
    && match s.pollers[p]
       case PWait(batch) =>
         // collect one more event, or (`flag`) return what was collected
         if flag then batch != []
         else s.closer == CIdle && fd in s.core.interest[p] && !InBatch(batch, s.core.interest[p][fd])
       case PServe(batch) => batch != [] ==> batch[0].c < |s.core.conns|
       case PInside(_) => false
       case _ => true
  }

  function SetPoller(s: State, p: PollerId, pc: PollerPc): (t: State)
    requires p < |s.pollers|
  {
    s.(pollers := s.pollers[p := pc])
  }

  /** `hup`: in PWait, the collected event is a hang-up. */
  function NextP(s: State, p: PollerId, fd: Fd, flag: bool, hup: bool): (t: State)
    requires EnabledP(s, p, fd, flag)
  {
    match s.pollers[p]
    case PWait(batch) =>
      SetPoller(s, p, if flag then PServe(batch) else PWait(batch + [Entry(s.core.interest[p][fd], hup)]))
    case PServe(batch) =>
      if batch == [] then SetPoller(s, p, PWait([]))
      else if batch[0].hangup then SetPoller(s, p, PWantReg(batch[0].c, batch[1..]))
      else
        var c := batch[0].c;
        SetPoller(s, p, PWantQueue(c, batch[1..])).(core := SetConn(s.core, c, s.core.conns[c].(kind := Data)))
    case PWantQueue(c, batch) => SetPoller(s, p, PPush(c, batch))
    case PPush(c, batch) => SetPoller(s, p, PServe(batch)).(queue := s.queue + [Task(c, Data)])
    case PWantReg(c, batch) => SetPoller(s, p, PInside(batch)).(section := SetClosed(p, c))
    case PInside(batch) => s
  }

  /** The TLS handler looks at m_SSL before it takes the socket mutex. */
  predicate MayUse(core: Core, c: ConnId)
    requires c < |core.conns|
  {
    core.protocol == Tcp || core.conns[c].ssl
  }

  ghost predicate EnabledW(s: State, w: nat, again: bool, c: ConnId) {
    && w < |s.workers|
    && MayTake(s, WantsWorker(s.workers[w]))
    && match s.workers[w]
       case WTest1(k) => k < |s.started| && s.started[k].c < |s.core.conns|
       case WTest2(k, _) => k < |s.started| && s.started[k].c < |s.core.conns|
       case WTest3(k, _, _) => k < |s.started| && s.started[k].c < |s.core.conns|
       case WCallback(_) => again ==> c < |s.core.conns|
       case _ => true
  }

  /** handleCallBackEvent as a function of the up to three values it reads. */
  function Dispatch(r1: Kind, r2: Kind, r3: Kind): (call: Callback) {
    if r1 == Data then DataEvent
    else if r2 == New then NewConnectionEvent
    else if r3 == Closed then ConnectionClosedEvent
    else NoCall
  }

  function SetWorker(s: State, w: nat, pc: WorkerPc): (t: State)
    requires w < |s.workers|
  {
    s.(workers := s.workers[w := pc])
  }

  function Conclude(s: State, w: nat, k: nat, r1: Kind, r2: Kind, r3: Kind): (t: State)
    requires w < |s.workers|
  {
    SetWorker(s, w, WCallback(k)).(outcomes := s.outcomes[k := Outcome(r1, r2, r3, Dispatch(r1, r2, r3))])
  }

  /** Waiting on the condition variable is idling; a callback may send and receive any number of
      times (`again`), each time on any connection `c`. */
  function NextW(s: State, w: nat, again: bool, c: ConnId): (t: State)
    requires EnabledW(s, w, again, c)
  {
    match s.workers[w]
    case WIdle => SetWorker(s, w, WWantQueue)
    case WWantQueue => SetWorker(s, w, WTake)
    case WTake =>
      if s.queue == [] then SetWorker(s, w, WIdle)
      else SetWorker(s, w, WTest1(|s.started|)).(queue := s.queue[1..], started := s.started + [s.queue[0]])
    case WTest1(k) =>
      var r := s.core.conns[s.started[k].c].kind;
      if r == Data then Conclude(s, w, k, r, r, r) else SetWorker(s, w, WTest2(k, r))
    case WTest2(k, r1) =>
      var r := s.core.conns[s.started[k].c].kind;
      if r == New then Conclude(s, w, k, r1, r, r) else SetWorker(s, w, WTest3(k, r1, r))
    case WTest3(k, r1, r2) => Conclude(s, w, k, r1, r2, s.core.conns[s.started[k].c].kind)
    case WCallback(k) =>
      SetWorker(s, w, if !again then WIdle else if MayUse(s.core, c) then WWantSocket(k, c) else WCallback(k))
    case WWantSocket(k, d) => SetWorker(s, w, WInSocket(k, d))
    case WInSocket(k, _) => SetWorker(s, w, WCallback(k))
  }

  /** Closing begins once the acceptor and the pollers are outside a batch. */
  ghost predicate EnabledC(s: State) {
    || (s.closer == CIdle && s.acceptor == AIdle && forall p :: 0 <= p < |s.pollers| ==> s.pollers[p] == PWait([]))
    || (s.closer == CWantReg && Free(s, RegMutex))
  }

  function NextC(s: State): (t: State)
    requires EnabledC(s)
  {
    if s.closer == CIdle then s.(closer := CWantReg)
    else s.(closer := CInside, section := Visit(s.core.store.Keys))
  }

  // ---------------------------------------------------------------- runs

  ghost predicate Enabled(s: State, st: Step) {
    match st
    case AStep => EnabledA(s)
    case PStep(p, fd, flag, _) => EnabledP(s, p, fd, flag)
    case WStep(w, again, c) => EnabledW(s, w, again, c)
    case CStep => EnabledC(s)
    case Inside(ok, fd, _) => EnabledInside(s, ok, fd)
  }

  function Next(s: State, st: Step): (t: State)
    requires Enabled(s, st)
  {
    match st
    case AStep => NextA(s)
    case PStep(p, fd, flag, hup) => NextP(s, p, fd, flag, hup)
    case WStep(w, again, c) => NextW(s, w, again, c)
    case CStep => NextC(s)
    case Inside(ok, fd, ssl) => NextInside(s, ok, fd, ssl)
  }

  ghost predicate Legal(s: State, steps: seq<Step>)
    decreases |steps|
  {
    steps == [] || (Enabled(s, steps[0]) && Legal(Next(s, steps[0]), steps[1..]))
  }

  function Exec(s: State, steps: seq<Step>): (t: State)
    requires Legal(s, steps)
    decreases |steps|
  {
    if steps == [] then s else Exec(Next(s, steps[0]), steps[1..])
  }

  ghost predicate Reachable(protocol: Protocol, pollers: nat, workers: nat, s: State) {
    exists steps ::
      Legal(Init(protocol, pollers, workers), steps) && Exec(Init(protocol, pollers, workers), steps) == s
  }
}
