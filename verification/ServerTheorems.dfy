/** What every reachable state of the server satisfies, for any number of pollers and workers,
    both handlers, and any behaviour of the operating system. */
module ServerTheorems {
  import opened Common
  import E = EventScheduler
  import opened ServerMachine
  import opened ServerCore
  import opened ServerCoreProof
  import opened ServerInvariant
  import opened ServerInvariantProof

  // ---------------------------------------------------------------- registry, interest sets, descriptors

  /** A connection in an interest set has its descriptor open, is in that set only, and is the
      object the map stores under the descriptor; the map entry is missing only while the
      acceptor, inside the mutex, has not inserted it yet, and once everything is closed. */
  lemma ListedAgrees(protocol: Protocol, pollers: nat, workers: nat, s: State, p: PollerId, fd: Fd)
    requires Reachable(protocol, pollers, workers, s)
    requires p < |s.core.interest| && fd in s.core.interest[p]
    ensures var c := s.core.interest[p][fd];
            && c < |s.core.conns| && s.core.conns[c].fd == fd
            && fd in s.core.open && s.core.open[fd] == c
            && (forall q, gd :: 0 <= q < |s.core.interest| && gd in s.core.interest[q] && s.core.interest[q][gd] == c ==>
                  q == p && gd == fd)
            && ((fd in s.core.store && s.core.store[fd] == c)
                || (Adding(s.section) && s.section.c == c) || s.section == LeaveAll || s.section == Finished)
  {
    ReachableInv(protocol, pollers, workers, s);
    var c := s.core.interest[p][fd];
    assert Listed(s.core, p, c);
    forall q, gd | 0 <= q < |s.core.interest| && gd in s.core.interest[q] && s.core.interest[q][gd] == c
      ensures q == p && gd == fd
    {
      assert Listed(s.core, q, c);
    }
  }

  /** The converse: an inserted connection that its handler will close, and whose descriptor is
      open, is in the map, and in its poller's interest set if a poller took it on, except
      between that connection's own epoll_ctl(DEL) and close. */
  lemma StoredAgrees(protocol: Protocol, pollers: nat, workers: nat, s: State, c: ConnId)
    requires Reachable(protocol, pollers, workers, s)
    requires c in s.core.inserted && !(Detached(s.section) && s.section.c == c)
    ensures c < |s.core.conns|
    ensures Closable(s.core, c) && Owns(s.core, c) ==>
              && Stored(s.core, c)
              && (forall h :: s.core.conns[c].handler == Some(h) ==> Listed(s.core, h, c))
  {
    ReachableInv(protocol, pollers, workers, s);
  }

  /** Under TCP every map entry is an open connection, except the one being removed after its
      close, and what close-all has visited. */
  lemma TcpMapIsOpen(pollers: nat, workers: nat, s: State, fd: Fd)
    requires Reachable(Tcp, pollers, workers, s) && fd in s.core.store
    ensures Owns(s.core, s.core.store[fd]) <==>
              !(PastClose(s.section) && s.section.c == s.core.store[fd])
              && !(s.section.Visit? && fd !in s.section.todo)
  {
    ReachableInv(Tcp, pollers, workers, s);
    ProtocolReachable(Tcp, pollers, workers, s);
  }

  lemma ProtocolReachable(protocol: Protocol, pollers: nat, workers: nat, s: State)
    requires Reachable(protocol, pollers, workers, s)
    ensures s.core.protocol == protocol && |s.core.interest| == |s.pollers| == pollers && |s.workers| == workers
  {
    var steps :|
      Legal(Init(protocol, pollers, workers), steps) && Exec(Init(protocol, pollers, workers), steps) == s;
    ShapeRun(Init(protocol, pollers, workers), steps);
  }

  lemma ShapeStep(s: State, st: Step)
    requires Enabled(s, st)
    ensures var t := Next(s, st);
            && t.core.protocol == s.core.protocol && |t.core.interest| == |s.core.interest|
            && |t.pollers| == |s.pollers| && |t.workers| == |s.workers|
  {
    match st
    case Inside(ok, fd, ssl) => SameShape(s.core, s.section, ok, fd, ssl);
    case _ =>
  }

  lemma SameShape(core: Core, at: Section, ok: bool, fd: Fd, ssl: bool)
    requires Possible(core, at, ok, fd)
    ensures var t := Effect(core, at, ok, fd, ssl);
            t.protocol == core.protocol && |t.interest| == |core.interest|
  {
  }

  lemma {:induction false} ShapeRun(s: State, steps: seq<Step>)
    requires Legal(s, steps)
    ensures var t := Exec(s, steps);
            && t.core.protocol == s.core.protocol && |t.core.interest| == |s.core.interest|
            && |t.pollers| == |s.pollers| && |t.workers| == |s.workers|
    decreases |steps|
  {
    if steps == [] {
    } else {
      var t := Next(s, steps[0]);
      ShapeStep(s, steps[0]);
      ShapeRun(t, steps[1..]);
    }
  }

  /** Even if the hang-up was reported before addSocket stored the handler pointer: past the
      registry mutex, removeSocket sees its own poller there, and finds exactly this connection
      in the map, in the interest set and behind the descriptor. */
  lemma EarlyHangupIsSafe(protocol: Protocol, pollers: nat, workers: nat, s: State)
    requires Reachable(protocol, pollers, workers, s) && s.section.ReadHandler?
    ensures var c, p := s.section.c, s.section.p;
            && c < |s.core.conns| && s.core.conns[c].handler == Some(p)
            && Stored(s.core, c) && Owns(s.core, c) && Listed(s.core, p, c)
  {
    ReachableInv(protocol, pollers, workers, s);
  }

  /** Although the descriptor was closed, hence free for reuse, before: what removeSocket erases
      is the removed connection's own entry. */
  lemma EraseIsOwn(protocol: Protocol, pollers: nat, workers: nat, s: State)
    requires Reachable(protocol, pollers, workers, s) && s.section.Erase?
    ensures s.section.c < |s.core.conns|
    ensures var fd := s.core.conns[s.section.c].fd;
            && fd in s.core.store && s.core.store[fd] == s.section.c
            && (Closable(s.core, s.section.c) ==> fd !in s.core.open || s.core.open[fd] != s.section.c)
  {
    ReachableInv(protocol, pollers, workers, s);
    assert s.section.c in s.core.inserted;
  }

  /** An insert overwrites only the entry of a connection that is closed already; under TCP it
      never overwrites. */
  lemma InsertReplacesClosed(protocol: Protocol, pollers: nat, workers: nat, s: State)
    requires Reachable(protocol, pollers, workers, s) && s.section.Insert?
    ensures s.section.c < |s.core.conns|
    ensures var fd := s.core.conns[s.section.c].fd;
            fd in s.core.store ==>
              && protocol == Tls && s.core.store[fd] != s.section.c
              && !Owns(s.core, s.core.store[fd]) && WasClosed(s.core, s.core.store[fd])
              && forall p :: 0 <= p < |s.core.interest| ==> !Listed(s.core, p, s.core.store[fd])
  {
    ReachableInv(protocol, pollers, workers, s);
    ProtocolReachable(protocol, pollers, workers, s);
    var fd := s.core.conns[s.section.c].fd;
    if fd in s.core.store {
      var prior := s.core.store[fd];
      assert prior != s.section.c;
      assert !Owns(s.core, prior);
    }
  }

  // ---------------------------------------------------------------- close

  /** Each close is made while the connection still owns the descriptor, hence at most once. */
  lemma CloseOwnership(protocol: Protocol, pollers: nat, workers: nat, s: State)
    requires Reachable(protocol, pollers, workers, s)
    ensures forall i :: 0 <= i < |s.core.closes| ==> s.core.closes[i].owner == Some(s.core.closes[i].c)
    ensures forall i, j :: 0 <= i < j < |s.core.closes| ==> s.core.closes[i].c != s.core.closes[j].c
    ensures forall c :: 0 <= c < |s.core.conns| ==> (WasClosed(s.core, c) <==> !Owns(s.core, c))
  {
    ReachableInv(protocol, pollers, workers, s);
  }

  /** After close-all, an inserted connection has been closed, exactly once, if and only if the
      handler is TCP or its m_SSL was not null when initConnection looked at it.  So under TCP
      all are closed; under TLS one whose m_SSL happened to be null stays open for good. */
  lemma ClosedIff(protocol: Protocol, pollers: nat, workers: nat, s: State, c: ConnId)
    requires Reachable(protocol, pollers, workers, s) && s.closer == CDone && c in s.core.inserted
    ensures c < |s.core.conns|
    ensures (exists i :: 0 <= i < |s.core.closes| && s.core.closes[i].c == c)
              <==> protocol == Tcp || s.core.conns[c].hadSsl
    ensures forall i, j :: 0 <= i < j < |s.core.closes| && s.core.closes[i].c == c ==> s.core.closes[j].c != c
  {
    ReachableInv(protocol, pollers, workers, s);
    ProtocolReachable(protocol, pollers, workers, s);
    assert WasClosed(s.core, c) <==> Closable(s.core, c);
  }

  // ---------------------------------------------------------------- inside a socket mutex

  predicate Using(s: State, w: nat, c: ConnId) {
    w < |s.workers| && s.workers[w].WInSocket? && s.workers[w].c == c
  }

  /** A callback inside a connection's socket mutex sends and receives on a descriptor number.
      Under both handlers the number is still this connection's if and only if the connection has
      not been closed; under TCP, where closing takes no socket mutex, it can have been. */
  lemma UserOwnsIff(protocol: Protocol, pollers: nat, workers: nat, s: State, w: nat, c: ConnId)
    requires Reachable(protocol, pollers, workers, s) && Using(s, w, c)
    ensures c < |s.core.conns| && (Owns(s.core, c) <==> !WasClosed(s.core, c))
  {
    ReachableInv(protocol, pollers, workers, s);
    assert TestOk(s.core, s.started, s.workers[w]);
  }

  /** Worker `w` wants a connection's socket mutex, to send or receive. */
  predicate Asking(s: State, w: nat, c: ConnId) {
    w < |s.workers| && s.workers[w].WWantSocket? && s.workers[w].c == c
  }

  /** A callback goes for a connection's socket mutex, in whatever step, if and only if it is about to
      use that connection, and under TLS finds m_SSL non-null; with a null m_SSL the call returns. */
  lemma AskingIff(protocol: Protocol, pollers: nat, workers: nat, s: State, st: Step, w: nat, c: ConnId)
    requires Reachable(protocol, pollers, workers, s) && Enabled(s, st) && !Asking(s, w, c)
    ensures Asking(Next(s, st), w, c) <==>
              && st == WStep(w, true, c) && s.workers[w].WCallback? && c < |s.core.conns|
              && (protocol == Tls ==> s.core.conns[c].ssl)
    ensures st == WStep(w, true, c) && s.workers[w].WCallback? && protocol == Tls && !s.core.conns[c].ssl ==>
              Next(s, st) == s
  {
    ProtocolReachable(protocol, pollers, workers, s);
    if st.WStep? && st.w == w {
      WorkerAsks(s, st, c);
    } else {
      OtherWorkersStay(s, st, w);
    }
  }

  lemma WorkerAsks(s: State, st: Step, c: ConnId)
    requires Enabled(s, st) && st.WStep? && !Asking(s, st.w, c)
    ensures Asking(Next(s, st), st.w, c) <==>
              && st == WStep(st.w, true, c) && s.workers[st.w].WCallback? && c < |s.core.conns|
              && (s.core.protocol == Tls ==> s.core.conns[c].ssl)
    ensures st == WStep(st.w, true, c) && s.workers[st.w].WCallback? && s.core.protocol == Tls && !s.core.conns[c].ssl ==>
              Next(s, st) == s
  {
  }

  lemma OtherWorkersStay(s: State, st: Step, w: nat)
    requires Enabled(s, st) && !(st.WStep? && st.w == w)
    ensures |Next(s, st).workers| == |s.workers|
    ensures w < |s.workers| ==> Next(s, st).workers[w] == s.workers[w]
  {
    if !st.WStep? {
      WorkersUntouched(s, st);
    }
  }

  lemma WorkersUntouched(s: State, st: Step)
    requires Enabled(s, st) && !st.WStep?
    ensures Next(s, st).workers == s.workers
  {
  }

  /** A worker is free again exactly when it found the queue empty or its callback has returned; so
      a callback can send and receive as often as it likes. */
  lemma FreeAgainIff(s: State, st: Step, w: nat)
    requires Enabled(s, st) && w < |s.workers| && s.workers[w] != WIdle
    ensures w < |Next(s, st).workers|
    ensures Next(s, st).workers[w] == WIdle <==>
              st.WStep? && st.w == w
              && ((s.workers[w] == WTake && s.queue == []) || (s.workers[w].WCallback? && !st.again))
  {
    if !(st.WStep? && st.w == w) {
      OtherWorkersStay(s, st, w);
    }
  }

  /** A TLS connection whose m_SSL somebody found non-null: initConnection found it so too, or has
      not looked at it yet. */
  predicate Session(core: Core, at: Section, c: ConnId) {
    && c < |core.conns|
    && if BeforeInit(at) && at.c == c then core.conns[c].ssl
       else core.conns[c].hadSsl || (core.conns[c].ssl && c !in core.inserted && !(Adding(at) && at.c == c))
  }

  ghost predicate SessionInv(s: State) {
    s.core.protocol == Tls ==> forall w, c :: Asking(s, w, c) || Using(s, w, c) ==> Session(s.core, s.section, c)
  }

  lemma SessionFound(core: Core, at: Section, c: ConnId)
    requires FateInv(core) && InitInv(core, at) && core.protocol == Tls && c < |core.conns| && core.conns[c].ssl
    ensures Session(core, at, c)
  {
    if c in core.inserted || (AfterInit(at) && at.c == c) {
      assert FateOk(core, c);
    }
  }

  /** What the thread inside does to m_SSL and to the flag that remembers it. */
  lemma InsideSession(core: Core, at: Section, next: PollerId, ok: bool, fd: Fd, ssl: bool, c: ConnId)
    requires CoreInv(core, at) && Possible(core, at, ok, fd) && core.protocol == Tls && Session(core, at, c)
    ensures Session(Effect(core, at, ok, fd, ssl), After(core, at, next, ok, fd), c)
  {
    SessionTouched(core, at, ok, fd, ssl, c);
    SessionPlace(core, at, next, ok, fd);
    assert Adding(at) ==> at.c !in core.inserted;
    if at.NullSsl? || at.NullSslAll? {
      NulledIsInserted(core, at);
    }
  }

  lemma NulledIsInserted(core: Core, at: Section)
    requires MapsInv(core) && RemoveInv(core, at) && ClosingInv(core, at) && (at.NullSsl? || at.NullSslAll?)
    ensures at.c in core.inserted
  {
    assert Stored(core, at.c);
  }

  /** Only these positions change what a connection's session depends on. */
  lemma SessionTouched(core: Core, at: Section, ok: bool, fd: Fd, ssl: bool, c: ConnId)
    requires Possible(core, at, ok, fd) && c < |core.conns|
    ensures var t := Effect(core, at, ok, fd, ssl);
            && c < |t.conns|
            && (t.conns[c].ssl == core.conns[c].ssl
                || ((at.GetCert? || at.FailNull? || at.NullSsl? || at.NullSslAll?) && at.c == c))
            && t.conns[c].hadSsl == (if at.InitConn? && at.c == c then core.conns[c].ssl else core.conns[c].hadSsl)
            && (c in t.inserted <==> c in core.inserted || (at.Insert? && at.c == c))
  {
    if AcceptorInside(at) {
      AcceptorTouches(core, at, ok, fd, ssl, c);
    }
  }

  lemma AcceptorTouches(core: Core, at: Section, ok: bool, fd: Fd, ssl: bool, c: ConnId)
    requires Possible(core, at, ok, fd) && AcceptorInside(at) && c < |core.conns|
    ensures var t := Effect(core, at, ok, fd, ssl);
            && c < |t.conns|
            && (t.conns[c].ssl == core.conns[c].ssl || ((at.GetCert? || at.FailNull?) && at.c == c))
            && t.conns[c].hadSsl == (if at.InitConn? && at.c == c then core.conns[c].ssl else core.conns[c].hadSsl)
            && (c in t.inserted <==> c in core.inserted || (at.Insert? && at.c == c))
  {
    if !Opening(at) {
      RegisterTouches(core, at, ok, fd, ssl, c);
    }
  }

  lemma RegisterTouches(core: Core, at: Section, ok: bool, fd: Fd, ssl: bool, c: ConnId)
    requires Possible(core, at, ok, fd) && AcceptorInside(at) && !Opening(at) && c < |core.conns|
    ensures var t := Effect(core, at, ok, fd, ssl);
            && c < |t.conns| && t.conns[c].ssl == core.conns[c].ssl && t.conns[c].hadSsl == core.conns[c].hadSsl
            && (c in t.inserted <==> c in core.inserted || (at.Insert? && at.c == c))
  {
  }

  /** initConnection comes after the handover and is not repeated. */
  lemma SessionPlace(core: Core, at: Section, next: PollerId, ok: bool, fd: Fd)
    requires Possible(core, at, ok, fd)
    ensures var to := After(core, at, next, ok, fd);
            && (Adding(to) ==> (Adding(at) && to.c == at.c) || (at == Accept && to.c == |core.conns|))
            && (Adding(at) && Adding(to) && BeforeInit(at) && !at.InitConn? ==> BeforeInit(to))
  {
  }

  lemma SessionStep(s: State, st: Step)
    requires Inv(s) && SessionInv(s) && Enabled(s, st)
    ensures SessionInv(Next(s, st))
  {
    var t := Next(s, st);
    ShapeStep(s, st);
    if s.core.protocol == Tls {
      forall w, c | Asking(t, w, c) || Using(t, w, c) ensures Session(t.core, t.section, c) {
        SessionKept(s, st, w, c);
      }
    }
  }

  lemma SessionKept(s: State, st: Step, w: nat, c: ConnId)
    requires Inv(s) && SessionInv(s) && Enabled(s, st) && s.core.protocol == Tls
    requires Asking(Next(s, st), w, c) || Using(Next(s, st), w, c)
    ensures Session(Next(s, st).core, Next(s, st).section, c)
  {
    if st.WStep? && st.w == w {
      assert Session(s.core, s.section, c) by { FoundOrHeld(s, st, c); }
      WorkerFrame(s, st);
    } else {
      OtherWorkersStay(s, st, w);
      assert Asking(s, w, c) || Using(s, w, c);
      HeldSession(s, st, c);
    }
  }

  lemma HeldSession(s: State, st: Step, c: ConnId)
    requires CoreInv(s.core, s.section) && PlacesInv(s) && Enabled(s, st) && s.core.protocol == Tls
    requires Session(s.core, s.section, c)
    ensures Session(Next(s, st).core, Next(s, st).section, c)
  {
    if st.Inside? {
      InsideSession(s.core, s.section, NextIndex(s), st.ok, st.fd, st.ssl, c);
    } else {
      OutsideSession(s, st, c);
    }
  }

  lemma FoundOrHeld(s: State, st: Step, c: ConnId)
    requires FateInv(s.core) && InitInv(s.core, s.section) && SessionInv(s) && Enabled(s, st) && st.WStep? && s.core.protocol == Tls
    requires Asking(Next(s, st), st.w, c) || Using(Next(s, st), st.w, c)
    ensures Session(s.core, s.section, c)
  {
    if Asking(s, st.w, c) || Using(s, st.w, c) {
      assert Session(s.core, s.section, c);
    } else {
      assert Asking(Next(s, st), st.w, c) by { NotUsingYet(s, st, c); }
      WorkerAsks(s, st, c);
      SessionFound(s.core, s.section, c);
    }
  }

  /** The mutex is asked for before it is held. */
  lemma NotUsingYet(s: State, st: Step, c: ConnId)
    requires Enabled(s, st) && st.WStep? && !Asking(s, st.w, c)
    ensures !Using(Next(s, st), st.w, c)
  {
  }

  lemma OutsideSession(s: State, st: Step, c: ConnId)
    requires Enabled(s, st) && !st.Inside? && Session(s.core, s.section, c)
    requires PlacesInv(s)
    ensures Session(Next(s, st).core, Next(s, st).section, c)
  {
    OutsideKeepsOwners(s, st);
    OutsidePlaces(s, st);
  }

  lemma OutsidePlaces(s: State, st: Step)
    requires PlacesInv(s) && Enabled(s, st) && !st.Inside?
    ensures var t := Next(s, st);
            && t.core.inserted == s.core.inserted && (Adding(t.section) ==> t.section == s.section)
  {
    if st.WStep? {
      WorkerFrame(s, st);
    }
  }

  lemma {:induction false} SessionRun(s: State, steps: seq<Step>)
    requires Inv(s) && SessionInv(s) && Legal(s, steps)
    ensures SessionInv(Exec(s, steps))
    decreases |steps|
  {
    if steps == [] {
    } else {
      InvStep(s, steps[0]);
      SessionStep(s, steps[0]);
      SessionRun(Next(s, steps[0]), steps[1..]);
    }
  }

  /** Under TLS a callback inside the mutex of an inserted connection is there behind a session:
      m_SSL was non-null at initConnection.  So m_SSL tells: inside the mutex it is non-null if and
      only if the descriptor is still the connection's own.  The test of m_SSL comes before the
      mutex, so it can be null here, for a connection closed in between. */
  lemma TlsUserOwnsIff(pollers: nat, workers: nat, s: State, w: nat, c: ConnId)
    requires Reachable(Tls, pollers, workers, s) && Using(s, w, c) && c in s.core.inserted
    ensures c < |s.core.conns| && s.core.conns[c].hadSsl
    ensures s.core.conns[c].ssl <==> Owns(s.core, c)
    ensures s.core.conns[c].ssl <==> !WasClosed(s.core, c)
  {
    var s0 := Init(Tls, pollers, workers);
    var steps :| Legal(s0, steps) && Exec(s0, steps) == s;
    InitialInv(Tls, pollers, workers);
    SessionRun(s0, steps);
    ReachableInv(Tls, pollers, workers, s);
    ProtocolReachable(Tls, pollers, workers, s);
    SessionTells(s, w, c);
  }

  lemma SessionTells(s: State, w: nat, c: ConnId)
    requires Inv(s) && SessionInv(s) && s.core.protocol == Tls && Using(s, w, c) && c in s.core.inserted
    ensures c < |s.core.conns| && s.core.conns[c].hadSsl
    ensures s.core.conns[c].ssl <==> Owns(s.core, c)
    ensures s.core.conns[c].ssl <==> !WasClosed(s.core, c)
  {
    assert Session(s.core, s.section, c);
    assert HoldsWorker(s.workers[w], SocketMutex(c));
    assert FateOk(s.core, c);
  }

  /** Under TLS nobody closes a connection, or frees its session, while a callback is inside its
      mutex. */
  lemma TlsUserUndisturbed(pollers: nat, workers: nat, s: State, st: Step, w: nat, c: ConnId)
    requires Reachable(Tls, pollers, workers, s) && Using(s, w, c) && c in s.core.inserted && Enabled(s, st)
    ensures var t := Next(s, st);
            && c < |s.core.conns| <= |t.core.conns| && t.core.conns[c].ssl == s.core.conns[c].ssl
            && (Owns(t.core, c) <==> Owns(s.core, c))
  {
    ReachableInv(Tls, pollers, workers, s);
    ProtocolReachable(Tls, pollers, workers, s);
    UndisturbedStep(s, st, w, c);
  }

  lemma UndisturbedStep(s: State, st: Step, w: nat, c: ConnId)
    requires CoreInv(s.core, s.section) && SocketMutexInv(s) && s.core.protocol == Tls
    requires Using(s, w, c) && c in s.core.inserted && Enabled(s, st)
    ensures var t := Next(s, st);
            && c < |s.core.conns| <= |t.core.conns| && t.core.conns[c].ssl == s.core.conns[c].ssl
            && (Owns(t.core, c) <==> Owns(s.core, c))
  {
    assert HoldsWorker(s.workers[w], SocketMutex(c));
    if st.Inside? {
      LockedKeeps(s.core, s.section, st.ok, st.fd, st.ssl, c);
    } else {
      OutsideKeepsOwners(s, st);
    }
  }

  /** Threads outside the registry mutex open and close nothing. */
  lemma OutsideKeepsOwners(s: State, st: Step)
    requires Enabled(s, st) && !st.Inside?
    ensures var t := Next(s, st);
            && |t.core.conns| == |s.core.conns| && t.core.open == s.core.open
            && (forall c :: 0 <= c < |s.core.conns| ==>
                  && t.core.conns[c].fd == s.core.conns[c].fd && t.core.conns[c].ssl == s.core.conns[c].ssl
                  && t.core.conns[c].hadSsl == s.core.conns[c].hadSsl)
  {
    if st.WStep? {
      WorkerFrame(s, st);
    }
  }

  lemma LockedKeeps(core: Core, at: Section, ok: bool, fd: Fd, ssl: bool, c: ConnId)
    requires CoreInv(core, at) && Possible(core, at, ok, fd) && core.protocol == Tls
    requires c in core.inserted && !HoldsInside(at, SocketMutex(c))
    ensures var t := Effect(core, at, ok, fd, ssl);
            && c < |core.conns| <= |t.conns| && t.conns[c].ssl == core.conns[c].ssl
            && (Owns(t, c) <==> Owns(core, c))
  {
    assert c < |core.conns|;
    LockedNotClosed(core, at, ok, fd, c);
    LockedSession(core, at, ok, fd, ssl, c);
    OwnersFollow(core, at, ok, fd, ssl, c);
  }

  lemma LockedNotClosed(core: Core, at: Section, ok: bool, fd: Fd, c: ConnId)
    requires AddingInv(core, at) && Possible(core, at, ok, fd) && core.protocol == Tls
    requires c in core.inserted && !HoldsInside(at, SocketMutex(c))
    ensures Closes(core, at, fd) != Some(c)
  {
  }

  /** m_SSL is written by the acceptor before insertion, or under the socket mutex. */
  lemma LockedSession(core: Core, at: Section, ok: bool, fd: Fd, ssl: bool, c: ConnId)
    requires AddingInv(core, at) && Possible(core, at, ok, fd)
    requires c in core.inserted && c < |core.conns| && !HoldsInside(at, SocketMutex(c))
    ensures var t := Effect(core, at, ok, fd, ssl);
            c < |t.conns| && |core.conns| <= |t.conns| && t.conns[c].ssl == core.conns[c].ssl
  {
    if Adding(at) {
      OtherSession(core, at, ok, fd, ssl, c);
    }
  }

  lemma OtherSession(core: Core, at: Section, ok: bool, fd: Fd, ssl: bool, c: ConnId)
    requires Possible(core, at, ok, fd) && Adding(at) && c < |core.conns| && c != at.c
    ensures var t := Effect(core, at, ok, fd, ssl);
            c < |t.conns| && |core.conns| <= |t.conns| && t.conns[c].ssl == core.conns[c].ssl
  {
  }

  /** Under either handler a callback's connection is closed, if at all, by the thread inside the
      registry mutex at its close call for that very connection. */
  lemma UserLosesIff(protocol: Protocol, pollers: nat, workers: nat, s: State, st: Step, w: nat, c: ConnId)
    requires Reachable(protocol, pollers, workers, s) && Using(s, w, c) && Enabled(s, st) && Owns(s.core, c)
    ensures Owns(Next(s, st).core, c) <==> !(st.Inside? && Closes(s.core, s.section, st.fd) == Some(c))
  {
    ReachableInv(protocol, pollers, workers, s);
    if st.Inside? {
      OwnersFollow(s.core, s.section, st.ok, st.fd, st.ssl, c);
    } else {
      OutsideKeepsOwners(s, st);
    }
  }

  lemma OwnersFollow(core: Core, at: Section, ok: bool, fd: Fd, ssl: bool, c: ConnId)
    requires CoreInv(core, at) && Possible(core, at, ok, fd) && c < |core.conns|
    ensures Owns(Effect(core, at, ok, fd, ssl), c) <==> Owns(core, c) && Closes(core, at, fd) != Some(c)
  {
    ClosesOwn(core, at, ok, fd);
    if Closes(core, at, fd).Some? {
      CloseOfFacts(core, Closes(core, at, fd).value);
    } else {
      OwnersStay(core, at, ok, fd, ssl, c);
    }
  }

  lemma OwnersStay(core: Core, at: Section, ok: bool, fd: Fd, ssl: bool, c: ConnId)
    requires EffectOk(core, at, ok, fd) && Closes(core, at, fd) == None && c < |core.conns|
    ensures Owns(Effect(core, at, ok, fd, ssl), c) <==> Owns(core, c)
  {
  }

  // ---------------------------------------------------------------- whose turn it is

  /** The poller that the scheduler's addSocket names between two states, if that is what happens. */
  function Turn(s: State, t: State): (r: seq<nat>) {
    if s.section.Advance? && t.section.WantPoll? then [t.section.p] else []
  }

  /** The pollers it names during a run, in order. */
  ghost function Turns(s: State, steps: seq<Step>): (r: seq<nat>)
    requires Legal(s, steps)
    decreases |steps|
  {
    if steps == [] then [] else Turn(s, Next(s, steps[0])) + Turns(Next(s, steps[0]), steps[1..])
  }

  lemma TurnStep(s: State, st: Step)
    requires Enabled(s, st)
    ensures var t := Next(s, st);
            && |t.core.interest| == |s.core.interest|
            && t.index == (if Turn(s, t) == [] then s.index else NextIndex(s))
            && (Turn(s, t) != [] ==> Turn(s, t) == [NextIndex(s)])
  {
    ShapeStep(s, st);
  }

  lemma TurnKeepsRound(s: State, st: Step, before: seq<nat>)
    requires Enabled(s, st) && |s.core.interest| > 0
    requires E.RoundRobin(before, |s.core.interest|) && s.index == |before| % |s.core.interest|
    ensures var t, n := Next(s, st), |s.core.interest|;
            && |t.core.interest| == n && E.RoundRobin(before + Turn(s, t), n) && t.index == |before + Turn(s, t)| % n
  {
    TurnStep(s, st);
    E.TakeTurn(before, |s.core.interest|);
    assert before + [] == before;
  }

  lemma {:induction false} TurnsGoOn(s: State, steps: seq<Step>, before: seq<nat>)
    requires Legal(s, steps) && |s.core.interest| > 0
    requires E.RoundRobin(before, |s.core.interest|) && s.index == |before| % |s.core.interest|
    ensures E.RoundRobin(before + Turns(s, steps), |s.core.interest|)
    decreases |steps|
  {
    if steps == [] {
      assert before + [] == before;
    } else {
      var t := Next(s, steps[0]);
      TurnKeepsRound(s, steps[0], before);
      TurnsGoOn(t, steps[1..], before + Turn(s, t));
      assert before + Turn(s, t) + Turns(t, steps[1..]) == before + (Turn(s, t) + Turns(t, steps[1..]));
    }
  }

  /** In every run call t of addSocket, counting from 1, goes to poller t mod n, whatever the other
      threads do in between; so any two pollers' shares differ by at most one. */
  lemma TurnsAreRoundRobin(protocol: Protocol, pollers: nat, workers: nat, steps: seq<Step>, i: nat, j: nat)
    requires pollers > 0 && Legal(Init(protocol, pollers, workers), steps) && i < pollers && j < pollers
    ensures var turns := Turns(Init(protocol, pollers, workers), steps);
            && E.RoundRobin(turns, pollers)
            && -1 <= E.Occurrences(turns, i) - E.Occurrences(turns, j) <= 1
  {
    var s := Init(protocol, pollers, workers);
    E.Quotient(0, pollers, 0, 0);
    TurnsGoOn(s, steps, []);
    assert [] + Turns(s, steps) == Turns(s, steps);
    E.SharesBalanced(Turns(s, steps), pollers, i, j);
  }

  // ---------------------------------------------------------------- event kinds and callbacks

  /** A connection's kind goes new, data, closed, and never back, whichever thread steps. */
  lemma KindForward(protocol: Protocol, pollers: nat, workers: nat, s: State, st: Step)
    requires Reachable(protocol, pollers, workers, s) && Enabled(s, st)
    ensures Forward(s.core, Next(s, st).core)
  {
    ReachableInv(protocol, pollers, workers, s);
    StepForward(s, st);
  }

  /** Whatever pollers and removers write in between the up to three reads: the data callback is
      delivered exactly when the first of them is data, the new-connection callback exactly when the
      second is new, to a task for a new connection only, and the closed callback exactly when the
      third is closed, and then the connection is.  So a data task delivers the data or the closed
      callback, a close task the closed callback, and only a task for a new connection can deliver
      none, exactly when it reads new, data, data. */
  lemma CallbackDelivered(protocol: Protocol, pollers: nat, workers: nat, s: State, k: nat)
    requires Reachable(protocol, pollers, workers, s) && k in s.outcomes
    ensures k < |s.started| && s.started[k].c < |s.core.conns|
    ensures s.outcomes[k].call == DataEvent <==> s.outcomes[k].r1 == Data
    ensures s.outcomes[k].call == NewConnectionEvent <==> s.outcomes[k].r2 == New
    ensures s.outcomes[k].call == NewConnectionEvent ==> s.started[k].tag == New && s.outcomes[k].r1 == New
    ensures s.outcomes[k].call == ConnectionClosedEvent <==> s.outcomes[k].r3 == Closed
    ensures s.outcomes[k].call == ConnectionClosedEvent ==> s.core.conns[s.started[k].c].kind == Closed
    ensures s.started[k].tag == Data ==> s.outcomes[k].call == DataEvent || s.outcomes[k].call == ConnectionClosedEvent
    ensures s.started[k].tag == Closed ==> s.outcomes[k].call == ConnectionClosedEvent
    ensures s.outcomes[k].call == NoCall <==>
              s.started[k].tag == New && s.outcomes[k].r1 == New && s.outcomes[k].r2 == Data && s.outcomes[k].r3 == Data
  {
    ReachableInv(protocol, pollers, workers, s);
    assert TaskOk(s.core, s.started[k]);
    assert OutcomeOk(s.started[k].tag, s.outcomes[k]);
    assert SeenOk(s.core, s.started[k], s.outcomes[k]);
  }

  /** At the very step that chooses it, the callback is the one for the kind the connection has:
      new, data, closed.  The one exception is none at all, at a connection that has data now and was
      new at the first read. */
  lemma CallbackIsCurrent(protocol: Protocol, pollers: nat, workers: nat, s: State, st: Step, k: nat)
    requires Reachable(protocol, pollers, workers, s) && Enabled(s, st)
    requires k !in s.outcomes && k in Next(s, st).outcomes
    ensures k < |s.started| && s.started[k].c < |s.core.conns|
    ensures var call, kind := Next(s, st).outcomes[k].call, s.core.conns[s.started[k].c].kind;
            && (call == NewConnectionEvent <==> kind == New)
            && (call == ConnectionClosedEvent <==> kind == Closed)
            && (call == DataEvent || call == NoCall <==> kind == Data)
            && (call == NoCall ==> Next(s, st).outcomes[k].r1 == New)
  {
    ReachableInv(protocol, pollers, workers, s);
    assert st.WStep?;
    ChosenNow(s, st, k);
  }

  lemma ChosenNow(s: State, st: Step, k: nat)
    requires TaskInv(s) && CallbackInv(s) && Enabled(s, st) && st.WStep?
    requires k !in s.outcomes && k in Next(s, st).outcomes
    ensures k < |s.started| && s.started[k].c < |s.core.conns|
    ensures var call, kind := Next(s, st).outcomes[k].call, s.core.conns[s.started[k].c].kind;
            && (call == NewConnectionEvent <==> kind == New)
            && (call == ConnectionClosedEvent <==> kind == Closed)
            && (call == DataEvent || call == NoCall <==> kind == Data)
            && (call == NoCall ==> Next(s, st).outcomes[k].r1 == New)
  {
    var pc := s.workers[st.w];
    assert TestOk(s.core, s.started, pc);
    assert Testing(pc) && pc.k == k;
    assert TaskOk(s.core, s.started[k]);
  }

  predicate TestedBy(s: State, w: nat, k: nat) {
    w < |s.workers| && Testing(s.workers[w]) && s.workers[w].k == k
  }

  ghost predicate DecidedInv(s: State) {
    forall k :: 0 <= k < |s.started| ==> k in s.outcomes || exists w :: TestedBy(s, w, k)
  }

  lemma DecidedStep(s: State, st: Step)
    requires DecidedInv(s) && Enabled(s, st)
    ensures DecidedInv(Next(s, st))
  {
    var t := Next(s, st);
    if st.WStep? {
      WorkerDecides(s, st.w, st.again, st.c);
    } else {
      assert t.started == s.started && t.outcomes == s.outcomes && t.workers == s.workers;
      assert forall w, k :: TestedBy(s, w, k) ==> TestedBy(t, w, k);
    }
  }

  lemma WorkerDecides(s: State, w: nat, again: bool, c: ConnId)
    requires DecidedInv(s) && EnabledW(s, w, again, c)
    ensures DecidedInv(NextW(s, w, again, c))
  {
    var t := NextW(s, w, again, c);
    forall k | 0 <= k < |t.started| ensures k in t.outcomes || exists v :: TestedBy(t, v, k) {
      if k == |s.started| {
        assert TestedBy(t, w, k);
      } else if k !in s.outcomes {
        var v :| TestedBy(s, v, k);
        assert k in t.outcomes || TestedBy(t, v, k);
      }
    }
  }

  lemma {:induction false} DecidedRun(s: State, steps: seq<Step>)
    requires DecidedInv(s) && Legal(s, steps)
    ensures DecidedInv(Exec(s, steps))
    decreases |steps|
  {
    if steps == [] {
    } else {
      var t := Next(s, steps[0]);
      DecidedStep(s, steps[0]);
      DecidedRun(t, steps[1..]);
    }
  }

  /** No started task is forgotten: its callback has been chosen, or one worker, and no other, is
      still choosing it. */
  lemma CallbackChosen(protocol: Protocol, pollers: nat, workers: nat, s: State, k: nat)
    requires Reachable(protocol, pollers, workers, s) && k < |s.started|
    ensures k in s.outcomes <==> !exists w :: TestedBy(s, w, k)
    ensures forall v, w :: TestedBy(s, v, k) && TestedBy(s, w, k) ==> v == w
  {
    var s0 := Init(protocol, pollers, workers);
    var steps :| Legal(s0, steps) && Exec(s0, steps) == s;
    DecidedRun(s0, steps);
    ReachableInv(protocol, pollers, workers, s);
  }

  /** The choice is made once per task. */
  lemma CallbackOnce(protocol: Protocol, pollers: nat, workers: nat, s: State, st: Step, k: nat)
    requires Reachable(protocol, pollers, workers, s) && Enabled(s, st) && k in s.outcomes
    ensures k in Next(s, st).outcomes && Next(s, st).outcomes[k] == s.outcomes[k]
  {
    ReachableInv(protocol, pollers, workers, s);
    OutcomesKept(s, st, k);
  }

  lemma OutcomesKept(s: State, st: Step, k: nat)
    requires CallbackInv(s) && Enabled(s, st) && k in s.outcomes
    ensures k in Next(s, st).outcomes && Next(s, st).outcomes[k] == s.outcomes[k]
  {
  }

  // ---------------------------------------------------------------- mutexes

  datatype Thread = TheInside | TheAcceptor | ThePoller(p: PollerId) | TheWorker(w: nat) | TheCloser

  predicate Holds(s: State, t: Thread, l: Lock) {
    match t
    case TheInside => HoldsInside(s.section, l)
    case ThePoller(p) => p < |s.pollers| && HoldsPoller(s.pollers[p], l)
    case TheWorker(w) => w < |s.workers| && HoldsWorker(s.workers[w], l)
    case _ => false
  }

  predicate Wants(s: State, t: Thread, l: Lock) {
    match t
    case TheInside => WantsInside(s.section) == Some(l)
    case TheAcceptor => s.acceptor == AWantReg && l == RegMutex
    case ThePoller(p) => p < |s.pollers| && WantsPoller(s.pollers[p]) == Some(l)
    case TheWorker(w) => w < |s.workers| && WantsWorker(s.workers[w]) == Some(l)
    case TheCloser => s.closer == CWantReg && l == RegMutex
  }

  predicate StepOf(t: Thread, st: Step) {
    match t
    case TheInside => st.Inside?
    case TheAcceptor => st.AStep?
    case ThePoller(p) => st.PStep? && st.p == p
    case TheWorker(w) => st.WStep? && st.w == w
    case TheCloser => st.CStep?
  }

  function LockRank(l: Lock): (n: nat) {
    match l
    case RegMutex => 0
    case CertMutex => 1
    case SchedMutex => 2
    case PollMutex(_) => 3
    case SocketMutex(_) => 4
    case QueueMutex => 5
  }

  /** Mutexes are taken in increasing rank, so none is ever taken again by its holder. */
  lemma LockOrder(s: State, t: Thread, held: Lock, wanted: Lock)
    requires Holds(s, t, held) && Wants(s, t, wanted)
    ensures LockRank(held) < LockRank(wanted)
  {
  }

  /** No two threads hold the same mutex. */
  lemma MutualExclusion(protocol: Protocol, pollers: nat, workers: nat, s: State, t: Thread, u: Thread, l: Lock)
    requires Reachable(protocol, pollers, workers, s) && Holds(s, t, l) && Holds(s, u, l)
    ensures t == u
  {
    ReachableInv(protocol, pollers, workers, s);
  }

  ghost predicate Busy(s: State, t: Thread) {
    exists l :: Holds(s, t, l) || Wants(s, t, l)
  }

  ghost predicate CanStep(s: State, t: Thread) {
    exists st :: StepOf(t, st) && Enabled(s, st)
  }

  /** A call that could fail or block for want of a resource always has some result. */
  lemma SomeResult(core: Core, at: Section) returns (fd: Fd)
    requires CoreInv(core, at) && |core.interest| > 0 && at != Nobody && at != Finished
    ensures Possible(core, at, false, fd)
  {
    if at.Visit? && at.todo != {} {
      fd :| fd in at.todo;
      assert fd in core.store;
    } else {
      fd := 0;
    }
  }

  /** The holder of a queue or socket mutex outside the section can release it. */
  lemma LeafHolderMoves(s: State, l: Lock)
    requires PlacesInv(s) && !HoldsInside(s.section, l) && !Free(s, l)
    ensures exists t :: Busy(s, t) && CanStep(s, t)
  {
    if p :| 0 <= p < |s.pollers| && HoldsPoller(s.pollers[p], l) {
      PushMoves(s, p);
    } else {
      var w :| 0 <= w < |s.workers| && HoldsWorker(s.workers[w], l);
      TakeMoves(s, w, l);
    }
  }

  lemma PushMoves(s: State, p: PollerId)
    requires PlacesInv(s) && p < |s.pollers| && s.pollers[p].PPush?
    ensures Busy(s, ThePoller(p)) && CanStep(s, ThePoller(p))
  {
    assert Holds(s, ThePoller(p), QueueMutex);
    assert StepOf(ThePoller(p), PStep(p, 0, false, false)) && Enabled(s, PStep(p, 0, false, false));
  }

  lemma TakeMoves(s: State, w: nat, l: Lock)
    requires w < |s.workers| && HoldsWorker(s.workers[w], l)
    ensures Busy(s, TheWorker(w)) && CanStep(s, TheWorker(w))
  {
    assert Holds(s, TheWorker(w), l);
    assert StepOf(TheWorker(w), WStep(w, false, 0)) && Enabled(s, WStep(w, false, 0));
  }

  lemma InsideMoves(s: State)
    requires Inv(s) && |s.pollers| > 0 && s.section != Nobody && s.section != Finished
    ensures exists t :: Busy(s, t) && CanStep(s, t)
  {
    assert Holds(s, TheInside, RegMutex);
    var fd := SomeResult(s.core, s.section);
    if MayTake(s, WantsInside(s.section)) {
      assert StepOf(TheInside, Inside(false, fd, false)) && Enabled(s, Inside(false, fd, false));
      assert CanStep(s, TheInside);
    } else {
      var l := WantsInside(s.section).value;
      assert !HoldsInside(s.section, l) by { NotReentered(s, TheInside, l); }
      LeafHolderMoves(s, l);
    }
  }

  /** Nobody waits for a mutex that it holds itself. */
  lemma NotReentered(s: State, t: Thread, l: Lock)
    requires Wants(s, t, l)
    ensures !Holds(s, t, l)
  {
    if Holds(s, t, l) {
      LockOrder(s, t, l, l);
    }
  }

  lemma OutsideMoves(s: State, t: Thread, l: Lock)
    requires Inv(s) && (s.section == Nobody || s.section == Finished) && t != TheInside
    requires Wants(s, t, l) && Free(s, l)
    ensures CanStep(s, t)
  {
    match t
    case TheAcceptor => assert Enabled(s, AStep);
    case ThePoller(p) => assert Enabled(s, PStep(p, 0, false, false));
    case TheWorker(w) => assert Enabled(s, WStep(w, false, 0));
    case TheCloser => assert Enabled(s, CStep);
  }

  /** No deadlock: whenever some thread holds or wants a mutex, some such thread can step. */
  lemma DeadlockFree(protocol: Protocol, pollers: nat, workers: nat, s: State, t: Thread)
    requires pollers > 0 && Reachable(protocol, pollers, workers, s) && Busy(s, t)
    ensures exists u :: Busy(s, u) && CanStep(s, u)
  {
    ReachableInv(protocol, pollers, workers, s);
    ProtocolReachable(protocol, pollers, workers, s);
    if s.section != Nobody && s.section != Finished {
      InsideMoves(s);
    } else {
      var l :| Holds(s, t, l) || Wants(s, t, l);
      BusyOutside(s, t, l);
    }
  }

  lemma BusyOutside(s: State, t: Thread, l: Lock)
    requires Inv(s) && (s.section == Nobody || s.section == Finished) && (Holds(s, t, l) || Wants(s, t, l))
    ensures exists u :: Busy(s, u) && CanStep(s, u)
  {
    if Free(s, l) {
      NotHeld(s, t, l);
      OutsideMoves(s, t, l);
      assert Busy(s, t) && CanStep(s, t);
    } else {
      LeafHolderMoves(s, l);
    }
  }

  lemma NotHeld(s: State, t: Thread, l: Lock)
    requires Free(s, l)
    ensures !Holds(s, t, l)
  {
  }
}
