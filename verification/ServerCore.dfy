/** What the thread inside the registry mutex keeps about connections, kernel and registry. */
module ServerCore {
  import opened Common
  import opened ServerMachine

  // ---------------------------------------------------------------- vocabulary

  /** The connection's descriptor is open and still the one it was accepted with. */
  predicate Owns(core: Core, c: ConnId) {
    c < |core.conns| && core.conns[c].fd in core.open && core.open[core.conns[c].fd] == c
  }

  /** The registry stores the connection under its own descriptor. */
  predicate Stored(core: Core, c: ConnId) {
    c < |core.conns| && core.conns[c].fd in core.store && core.store[core.conns[c].fd] == c
  }

  /** Poller `p` has the connection in its interest set under its own descriptor. */
  predicate Listed(core: Core, p: PollerId, c: ConnId) {
    c < |core.conns| && p < |core.interest|
    && core.conns[c].fd in core.interest[p] && core.interest[p][core.conns[c].fd] == c
  }

  ghost predicate ListedNowhere(core: Core, c: ConnId) {
    forall p :: 0 <= p < |core.interest| ==> !Listed(core, p, c)
  }

  ghost predicate WasClosed(core: Core, c: ConnId) {
    exists i :: 0 <= i < |core.closes| && core.closes[i].c == c
  }

  /** A connection whose handler will close it: every one under TCP, and under TLS those whose
      m_SSL was not null when initConnection looked. */
  predicate Closable(core: Core, c: ConnId)
    requires c < |core.conns|
  {
    core.protocol == Tcp || core.conns[c].hadSsl
  }

  function Rank(k: Kind): (n: nat) {
    match k
    case Blank => 0
    case New => 1
    case Data => 2
    case Closed => 3
  }

  predicate BeforeInit(at: Section) {
    at.Convert? || at.SetKind? || at.InitConn?
  }

  predicate InsideInit(at: Section) {
    at.WantCert? || at.GetCert? || at.Handshake? || at.FailClose?
  }

  predicate AfterInit(at: Section) {
    at.WantSched? || at.Advance? || at.WantPoll? || at.EpollAdd? || at.SetHandler? || at.UnlockSched? || at.Insert?
  }

  /** The acceptor is working on a connection it has not inserted yet. */
  predicate Adding(at: Section) {
    BeforeInit(at) || InsideInit(at) || at.FailNull? || AfterInit(at)
  }

  predicate BeforeAdd(at: Section) {
    Adding(at) && !at.SetHandler? && !at.UnlockSched? && !at.Insert?
  }

  /** A remover whose connection is still in its interest set. */
  predicate Unlisting(at: Section) {
    at.SetClosed? || at.ReadHandler? || at.WantDelete? || at.Delete?
  }

  /** A remover between epoll_ctl(DEL) and erase. */
  predicate Detached(at: Section) {
    at.CloseConn? || at.WantSocket? || at.CloseFd? || at.NullSsl? || PastClose(at)
  }

  /** closeConnection has returned. */
  predicate PastClose(at: Section) {
    at.WantQueueClosed? || at.PushClosed? || at.Erase?
  }

  predicate ClosingAll(at: Section) {
    at.Visit? || at.WantSocketAll? || at.CloseFdAll? || at.NullSslAll?
  }

  /** The stretches of code inside the registry mutex, for going through them one by one. */
  predicate Opening(at: Section) {
    at == Accept || BeforeInit(at) || InsideInit(at) || at.FailNull?
  }

  predicate Scheduling(at: Section) {
    at.WantSched? || at.Advance? || at.WantPoll? || at.EpollAdd?
  }

  predicate Registering(at: Section) {
    at.SetHandler? || at.UnlockSched? || at.Insert? || at.WantQueue? || at.PushNew?
  }

  predicate Visiting(at: Section) {
    at.Visit?
  }

  predicate ClosingOne(at: Section) {
    at.WantSocketAll? || at.CloseFdAll? || at.NullSslAll?
  }

  /** Which thread is inside. */
  predicate AcceptorInside(at: Section) {
    Opening(at) || Scheduling(at) || Registering(at) || at == Leave
  }

  predicate RemoverInside(at: Section) {
    Unlisting(at) || Detached(at) || at.LeaveRemove?
  }

  predicate CloserInside(at: Section) {
    Visiting(at) || ClosingOne(at) || at == LeaveAll
  }

  // ---------------------------------------------------------------- the invariant

  /** Open descriptors, map entries and interest sets name connections under their own number. */
  ghost predicate MapsInv(core: Core) {
    && (forall fd :: fd in core.open ==> core.open[fd] < |core.conns| && core.conns[core.open[fd]].fd == fd)
    && (forall fd :: fd in core.store ==>
          core.store[fd] < |core.conns| && core.conns[core.store[fd]].fd == fd && core.store[fd] in core.inserted)
    && (forall p, fd :: 0 <= p < |core.interest| && fd in core.interest[p] ==>
          core.interest[p][fd] < |core.conns| && core.conns[core.interest[p][fd]].fd == fd)
    && (forall c :: c in core.inserted ==> c < |core.conns|)
  }

  /** A connection owns its descriptor from accept until the one close call made for it. */
  ghost predicate CloseInv(core: Core) {
    && (forall i :: 0 <= i < |core.closes| ==>
          core.closes[i].c < |core.conns| && core.closes[i].owner == Some(core.closes[i].c))
    && (forall i, j :: 0 <= i < j < |core.closes| ==> core.closes[i].c != core.closes[j].c)
    && (forall c :: 0 <= c < |core.conns| ==> (Owns(core, c) <==> !WasClosed(core, c)))
  }

  /** A listed connection owns its descriptor, belongs to the poller that lists it, and is in
      the map unless the acceptor is about to put it there. */
  ghost predicate ListInv(core: Core, at: Section) {
    forall p: PollerId, c: ConnId :: p < |core.interest| && Listed(core, p, c) ==>
      && Owns(core, c)
      && (core.conns[c].handler == Some(p) || at == SetHandler(c, p))
      && (Stored(core, c) || (Adding(at) && at.c == c) || at == LeaveAll || at == Finished)
      && core.conns[c].kind != Blank
      && (core.conns[c].kind == Closed ==> Unlisting(at) && at.p == p && at.c == c)
  }

  ghost predicate HandlerInv(core: Core) {
    forall c :: 0 <= c < |core.conns| && core.conns[c].handler.Some? ==> core.conns[c].handler.value < |core.interest|
  }

  /** After initConnection: a closable TLS connection that still owns its descriptor has its
      SSL object, and one that is not closable owns its descriptor for good. */
  predicate FateOk(core: Core, c: ConnId)
    requires c < |core.conns|
  {
    && (core.protocol == Tls && Closable(core, c) && Owns(core, c) ==> core.conns[c].ssl)
    && (!Closable(core, c) ==> Owns(core, c) && !core.conns[c].ssl)
  }

  /** What happens to an inserted connection: until it is closed it stays in the map. */
  ghost predicate FateInv(core: Core) {
    forall c :: c in core.inserted && c < |core.conns| ==>
      core.conns[c].kind != Blank && FateOk(core, c) && (Closable(core, c) && Owns(core, c) ==> Stored(core, c))
  }

  /** Under TCP the map never holds a closed connection, except during removal and close-all. */
  ghost predicate StoreTcpInv(core: Core, at: Section) {
    core.protocol == Tcp ==>
      forall fd :: fd in core.store ==>
        Owns(core, core.store[fd]) || (PastClose(at) && at.c == core.store[fd]) || (at.Visit? && fd !in at.todo)
  }

  /** Under TLS, a connection with an SSL object owns its descriptor, except between close and
      the assignment that follows it. */
  ghost predicate SslInv(core: Core, at: Section) {
    core.protocol == Tls ==>
      forall c :: 0 <= c < |core.conns| && core.conns[c].ssl ==>
        Owns(core, c) || ((at.FailNull? || at.NullSsl? || at.NullSslAll?) && at.c == c)
  }

  ghost predicate AddingInv(core: Core, at: Section) {
    && (Adding(at) ==>
          && at.c < |core.conns| && at.c !in core.inserted
          && (core.conns[at.c].fd in core.open ==> core.open[core.conns[at.c].fd] == at.c)
          && (at.Convert? || at.SetKind? <==> core.conns[at.c].kind == Blank)
          && (BeforeAdd(at) ==>
                ListedNowhere(core, at.c) && core.conns[at.c].handler == None && Rank(core.conns[at.c].kind) <= 1))
    && (at.WantPoll? || at.EpollAdd? || at.SetHandler? ==> at.p < |core.interest|)
    && (at.SetHandler? ==> Listed(core, at.p, at.c) && core.conns[at.c].handler == None)
    && (at.WantQueue? || at.PushNew? ==> at.c in core.inserted)
  }

  ghost predicate InitInv(core: Core, at: Section) {
    Adding(at) && at.c < |core.conns| ==>
      && (BeforeInit(at) ==> Owns(core, at.c))
      && (InsideInit(at) ==> Owns(core, at.c) && core.conns[at.c].hadSsl && core.protocol == Tls)
      && (at.Handshake? ==> core.conns[at.c].ssl)
      && (at.FailNull? ==> !Owns(core, at.c) && core.conns[at.c].hadSsl && core.protocol == Tls)
      && (AfterInit(at) ==> FateOk(core, at.c) && (core.protocol == Tcp ==> Owns(core, at.c)))
  }

  /** The remover's own connection: still listed at first, still stored to the end. */
  ghost predicate RemoveInv(core: Core, at: Section) {
    && (Unlisting(at) ==>
          && Listed(core, at.p, at.c) && Stored(core, at.c) && core.conns[at.c].handler == Some(at.p)
          && (at.SetClosed? <==> core.conns[at.c].kind != Closed))
    && (at.WantDelete? || at.Delete? ==> at.h == at.p)
    && (Detached(at) ==>
          && Stored(core, at.c) && core.conns[at.c].handler == Some(at.p) && core.conns[at.c].kind == Closed
          && ListedNowhere(core, at.c)
          && (at.CloseConn? ==> Owns(core, at.c))
          && (at.WantSocket? || at.CloseFd? ==> Owns(core, at.c) && core.protocol == Tls && core.conns[at.c].ssl)
          && (at.NullSsl? ==> core.protocol == Tls && !Owns(core, at.c))
          && (PastClose(at) ==> if core.protocol == Tcp then !Owns(core, at.c) else !core.conns[at.c].ssl))
  }

  /** Closing everything: what is no longer on the list is closed, if it is closable. */
  ghost predicate ClosingInv(core: Core, at: Section) {
    && (ClosingAll(at) ==>
          && at.todo <= core.store.Keys
          && (forall fd :: fd in core.store && fd !in at.todo && core.store[fd] < |core.conns| && Closable(core, core.store[fd]) ==>
                !Owns(core, core.store[fd]) || (!at.Visit? && at.c == core.store[fd])))
    && (at.WantSocketAll? || at.CloseFdAll? || at.NullSslAll? ==>
          && core.protocol == Tls && Stored(core, at.c) && core.conns[at.c].fd !in at.todo
          && (at.NullSslAll? <==> !Owns(core, at.c)) && (!at.NullSslAll? ==> core.conns[at.c].ssl))
    && (at == LeaveAll || at == Finished ==> core.store == map[])
  }

  /** A closable connection that its poller has taken on stays in that poller's interest set
      until its remover deletes it or it is closed. */
  ghost predicate KeptInv(core: Core, at: Section) {
    forall c :: 0 <= c < |core.conns| && core.conns[c].handler.Some? && Closable(core, c) && Owns(core, c) ==>
      Listed(core, core.conns[c].handler.value, c) || (Detached(at) && at.c == c)
  }

  /** What holds wherever the thread inside is. */
  ghost predicate BaseInv(core: Core, at: Section) {
    MapsInv(core) && CloseInv(core) && StateInv(core, at)
  }

  ghost predicate StateInv(core: Core, at: Section) {
    && ListInv(core, at) && KeptInv(core, at) && HandlerInv(core) && FateInv(core)
    && StoreTcpInv(core, at) && SslInv(core, at)
  }

  /** What the thread inside knows at its position. */
  ghost predicate PositionInv(core: Core, at: Section) {
    AddingInv(core, at) && InitInv(core, at) && RemoveInv(core, at) && ClosingInv(core, at)
  }

  ghost predicate CoreInv(core: Core, at: Section) {
    BaseInv(core, at) && PositionInv(core, at)
  }

  // ---------------------------------------------------------------- effects, seen from a connection

  ghost predicate ListedOwn(core: Core) {
    forall p: PollerId, d: ConnId :: Listed(core, p, d) ==> Owns(core, d)
  }

  lemma AddConnFacts(core: Core, fd: Fd, ssl: bool)
    requires MapsInv(core) && fd !in core.open
    ensures var t := AddConn(core, fd, ssl);
            && (forall d :: 0 <= d < |core.conns| ==>
                  t.conns[d] == core.conns[d] && Owns(t, d) == Owns(core, d) && Stored(t, d) == Stored(core, d))
            && (forall p: PollerId, d: ConnId :: d < |core.conns| ==> Listed(t, p, d) == Listed(core, p, d))
            && Owns(t, |core.conns|) && !Stored(t, |core.conns|) && ListedNowhere(t, |core.conns|)
  {
  }

  lemma SetConnFacts(core: Core, c: ConnId, conn: Conn)
    requires c < |core.conns| && conn.fd == core.conns[c].fd
    ensures var t := SetConn(core, c, conn);
            && (forall d: ConnId :: Owns(t, d) == Owns(core, d) && Stored(t, d) == Stored(core, d))
            && (forall p: PollerId, d: ConnId :: Listed(t, p, d) == Listed(core, p, d))
  {
  }

  /** Closing for a connection that owns its descriptor takes it from nobody else. */
  lemma CloseOfFacts(core: Core, c: ConnId)
    requires MapsInv(core) && Owns(core, c)
    requires ListedOwn(core)
    ensures var t := CloseOf(core, c);
            && (forall d: ConnId :: Owns(t, d) == (Owns(core, d) && d != c))
            && (forall d: ConnId :: Stored(t, d) == Stored(core, d))
            && (forall p: PollerId, d: ConnId :: Listed(t, p, d) == (Listed(core, p, d) && d != c))
            && (forall d: ConnId :: WasClosed(t, d) <==> WasClosed(core, d) || d == c)
  {
    var t := CloseOf(core, c);
    forall d: ConnId ensures WasClosed(t, d) <==> WasClosed(core, d) || d == c {
      if WasClosed(core, d) {
        var i :| 0 <= i < |core.closes| && core.closes[i].c == d;
        assert t.closes[i].c == d;
      }
      assert t.closes[|core.closes|].c == c;
    }
  }

  /** Whose descriptor this position closes. */
  function Closes(core: Core, at: Section, fd: Fd): (r: Option<ConnId>) {
    match at
    case FailClose(c) => Some(c)
    case CloseConn(_, c) => if core.protocol == Tcp then Some(c) else None
    case CloseFd(_, c) => Some(c)
    case Visit(todo) =>
      if todo != {} && core.protocol == Tcp && fd in core.store then Some(core.store[fd]) else None
    case CloseFdAll(c, _) => Some(c)
    case _ => None
  }

  /** The maps are in order, and if a descriptor is closed here, its owner does it. */
  ghost predicate EffectOk(core: Core, at: Section, ok: bool, fd: Fd) {
    && Possible(core, at, ok, fd) && MapsInv(core) && ListedOwn(core)
    && (Closes(core, at, fd).Some? ==> Owns(core, Closes(core, at, fd).value))
    && (at.Delete? ==> Owns(core, at.c))
  }

  /** Every close is made by the connection that owns the descriptor. */
  lemma ClosesOwn(core: Core, at: Section, ok: bool, fd: Fd)
    requires CoreInv(core, at) && Possible(core, at, ok, fd)
    ensures EffectOk(core, at, ok, fd)
  {
  }

  lemma ListedSame(core: Core, at: Section, ok: bool, fd: Fd, ssl: bool)
    requires EffectOk(core, at, ok, fd) && Closes(core, at, fd) == None && !at.Delete? && !at.EpollAdd?
    ensures var t := Effect(core, at, ok, fd, ssl);
            t.interest == core.interest && forall p: PollerId, d: ConnId :: Listed(t, p, d) <==> Listed(core, p, d)
  {
    if at == Accept && ok {
      AddConnFacts(core, fd, ssl);
    }
  }

  lemma ListedAfter(core: Core, at: Section, ok: bool, fd: Fd, ssl: bool)
    requires EffectOk(core, at, ok, fd)
    ensures var t := Effect(core, at, ok, fd, ssl);
            && |t.interest| == |core.interest|
            && (forall p: PollerId, d: ConnId :: Listed(t, p, d) <==>
                  (Listed(core, p, d) && Closes(core, at, fd) != Some(d) && !(at.Delete? && at.h == p && at.c == d))
                  || (at.EpollAdd? && ok && at.p == p && at.c == d))
  {
    if Closes(core, at, fd).Some? {
      CloseOfFacts(core, Closes(core, at, fd).value);
    } else if !at.Delete? && !at.EpollAdd? {
      ListedSame(core, at, ok, fd, ssl);
    }
  }
}
