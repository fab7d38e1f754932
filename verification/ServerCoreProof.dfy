/** Every move of the thread inside the registry mutex keeps CoreInv, position by position. */
module ServerCoreProof {
  import opened Common
  import opened ServerMachine
  import opened ServerCore

  // ---------------------------------------------------------------- what the operations keep

  lemma SameCloses(core: Core, t: Core)
    requires CloseInv(core) && t.closes == core.closes && |t.conns| == |core.conns|
    requires forall d: ConnId :: d < |core.conns| ==> Owns(t, d) == Owns(core, d)
    ensures CloseInv(t)
  {
    assert forall d: ConnId :: WasClosed(t, d) <==> WasClosed(core, d);
  }

  lemma AddConnKeeps(core: Core, fd: Fd, ssl: bool)
    requires CloseInv(core) && MapsInv(core) && fd !in core.open
    ensures CloseInv(AddConn(core, fd, ssl)) && MapsInv(AddConn(core, fd, ssl))
  {
    AddConnFacts(core, fd, ssl);
    var t := AddConn(core, fd, ssl);
    forall d | 0 <= d < |t.conns| ensures Owns(t, d) <==> !WasClosed(t, d) {
      if d < |core.conns| {
        assert WasClosed(t, d) <==> WasClosed(core, d);
      }
    }
  }

  lemma SetConnKeeps(core: Core, c: ConnId, conn: Conn)
    requires CloseInv(core) && MapsInv(core) && c < |core.conns| && conn.fd == core.conns[c].fd
    ensures CloseInv(SetConn(core, c, conn)) && MapsInv(SetConn(core, c, conn))
  {
    SetConnFacts(core, c, conn);
    SameCloses(core, SetConn(core, c, conn));
  }

  lemma CloseOfKeeps(core: Core, c: ConnId)
    requires CloseInv(core) && MapsInv(core) && ListedOwn(core) && Owns(core, c)
    ensures CloseInv(CloseOf(core, c)) && MapsInv(CloseOf(core, c))
  {
    CloseOfFacts(core, c);
    forall i | 0 <= i < |core.closes| ensures core.closes[i].c != c {
      if core.closes[i].c == c {
        assert WasClosed(core, c);
      }
    }
  }

  lemma ListConnFacts(core: Core, c: ConnId, p: PollerId)
    requires MapsInv(core) && c < |core.conns| && p < |core.interest| && core.conns[c].fd !in core.interest[p]
    ensures var t := ListConn(core, c, p);
            && MapsInv(t) && (CloseInv(core) ==> CloseInv(t)) && |t.interest| == |core.interest|
            && (forall d: ConnId :: Owns(t, d) == Owns(core, d) && Stored(t, d) == Stored(core, d))
            && (forall q: PollerId, d: ConnId :: Listed(t, q, d) <==> Listed(core, q, d) || (q == p && d == c))
  {
    if CloseInv(core) {
      SameCloses(core, ListConn(core, c, p));
    }
  }

  lemma UnlistFacts(core: Core, c: ConnId, p: PollerId)
    requires MapsInv(core) && p < |core.interest| && Listed(core, p, c)
    ensures var t := Unlist(core, c, p);
            && MapsInv(t) && (CloseInv(core) ==> CloseInv(t)) && |t.interest| == |core.interest|
            && (forall d: ConnId :: Owns(t, d) == Owns(core, d) && Stored(t, d) == Stored(core, d))
            && (forall q: PollerId, d: ConnId :: Listed(t, q, d) <==> Listed(core, q, d) && !(q == p && d == c))
  {
    if CloseInv(core) {
      SameCloses(core, Unlist(core, c, p));
    }
  }

  lemma StoreConnFacts(core: Core, c: ConnId)
    requires MapsInv(core) && c < |core.conns|
    ensures var t := StoreConn(core, c);
            && MapsInv(t) && (CloseInv(core) ==> CloseInv(t))
            && (forall d: ConnId :: Owns(t, d) == Owns(core, d))
            && (forall q: PollerId, d: ConnId :: Listed(t, q, d) == Listed(core, q, d))
            && Stored(t, c)
            && (forall d: ConnId :: d < |core.conns| && core.conns[d].fd != core.conns[c].fd ==> Stored(t, d) == Stored(core, d))
  {
    if CloseInv(core) {
      SameCloses(core, StoreConn(core, c));
    }
  }

  lemma EraseConnFacts(core: Core, c: ConnId)
    requires MapsInv(core) && Stored(core, c)
    ensures var t := EraseConn(core, c);
            && MapsInv(t) && (CloseInv(core) ==> CloseInv(t))
            && (forall d: ConnId :: Owns(t, d) == Owns(core, d) && Stored(t, d) == (Stored(core, d) && d != c))
            && (forall q: PollerId, d: ConnId :: Listed(t, q, d) == Listed(core, q, d))
  {
    if CloseInv(core) {
      SameCloses(core, EraseConn(core, c));
    }
  }

  lemma ClearFacts(core: Core)
    requires MapsInv(core)
    ensures var t := core.(store := map[]);
            && MapsInv(t) && (CloseInv(core) ==> CloseInv(t))
            && (forall d: ConnId :: Owns(t, d) == Owns(core, d))
            && (forall q: PollerId, d: ConnId :: Listed(t, q, d) == Listed(core, q, d))
  {
    if CloseInv(core) {
      SameCloses(core, core.(store := map[]));
    }
  }

  // ---------------------------------------------------------------- the acceptor

  lemma AcceptFailMoves(core: Core)
    requires CoreInv(core, Accept)
    ensures CoreInv(core, Leave)
  {
    assert BaseInv(core, Leave) by { AcceptFailMovesBase(core); }
  }

  lemma AcceptFailMovesBase(core: Core)
    requires BaseInv(core, Accept) && PositionInv(core, Accept)
    ensures BaseInv(core, Leave)
  {
  }

  lemma AcceptKeeps(core: Core, fd: Fd, ssl: bool)
    requires CoreInv(core, Accept) && fd !in core.open
    ensures CoreInv(AddConn(core, fd, ssl), Convert(|core.conns|))
  {
    var t := AddConn(core, fd, ssl);
    var to := Convert(|core.conns|);
    assert MapsInv(t) && CloseInv(t) by { AddConnKeeps(core, fd, ssl); }
    assert StateInv(t, to) by { AcceptBase(core, fd, ssl); }
    assert PositionInv(t, to) by { AcceptPosition(core, fd, ssl); }
  }

  lemma AcceptBase(core: Core, fd: Fd, ssl: bool)
    requires MapsInv(core) && StateInv(core, Accept) && fd !in core.open
    ensures StateInv(AddConn(core, fd, ssl), Convert(|core.conns|))
  {
    AcceptLists(core, fd, ssl);
    AcceptFates(core, fd, ssl);
  }

  lemma AcceptLists(core: Core, fd: Fd, ssl: bool)
    requires MapsInv(core) && ListInv(core, Accept) && KeptInv(core, Accept) && fd !in core.open
    ensures ListInv(AddConn(core, fd, ssl), Convert(|core.conns|)) && KeptInv(AddConn(core, fd, ssl), Convert(|core.conns|))
  {
    AddConnLists(core, fd, ssl);
    AddConnKept(core, fd, ssl);
  }

  lemma AddConnLists(core: Core, fd: Fd, ssl: bool)
    requires MapsInv(core) && ListInv(core, Accept) && fd !in core.open
    ensures ListInv(AddConn(core, fd, ssl), Convert(|core.conns|))
  {
    AddConnFacts(core, fd, ssl);
    var t := AddConn(core, fd, ssl);
    assert forall p: PollerId, d: ConnId :: p < |t.interest| && Listed(t, p, d) ==> d < |core.conns| && Listed(core, p, d);
  }

  lemma AddConnKept(core: Core, fd: Fd, ssl: bool)
    requires MapsInv(core) && KeptInv(core, Accept) && fd !in core.open
    ensures KeptInv(AddConn(core, fd, ssl), Convert(|core.conns|))
  {
    AddConnFacts(core, fd, ssl);
  }

  lemma AcceptFates(core: Core, fd: Fd, ssl: bool)
    requires MapsInv(core) && HandlerInv(core) && FateInv(core) && StoreTcpInv(core, Accept) && SslInv(core, Accept)
    requires fd !in core.open
    ensures var t, to := AddConn(core, fd, ssl), Convert(|core.conns|);
            HandlerInv(t) && FateInv(t) && StoreTcpInv(t, to) && SslInv(t, to)
  {
    AddConnFacts(core, fd, ssl);
  }

  lemma AcceptPosition(core: Core, fd: Fd, ssl: bool)
    requires MapsInv(core) && ListInv(core, Accept) && FateInv(core)
    requires StoreTcpInv(core, Accept) && SslInv(core, Accept) && PositionInv(core, Accept) && fd !in core.open
    ensures PositionInv(AddConn(core, fd, ssl), Convert(|core.conns|))
  {
    AddConnFacts(core, fd, ssl);
  }

  lemma ConvertMoves(core: Core, c: ConnId)
    requires CoreInv(core, Convert(c))
    ensures CoreInv(core, SetKind(c))
  {
  }

  lemma ConvertFailMoves(core: Core, c: ConnId)
    requires CoreInv(core, Convert(c))
    ensures CoreInv(core, Leave)
  {
    assert BaseInv(core, Leave) by { ConvertFailMovesBase(core, c); }
  }

  lemma ConvertFailMovesBase(core: Core, c: ConnId)
    requires BaseInv(core, Convert(c)) && PositionInv(core, Convert(c))
    ensures BaseInv(core, Leave)
  {
  }

  lemma SetKindKeeps(core: Core, c: ConnId)
    requires CoreInv(core, SetKind(c))
    ensures CoreInv(SetConn(core, c, core.conns[c].(kind := New)), InitConn(c))
  {
    var t := SetConn(core, c, core.conns[c].(kind := New));
    var to := InitConn(c);
    assert MapsInv(t) && CloseInv(t) by { SetConnKeeps(core, c, core.conns[c].(kind := New)); }
    assert StateInv(t, to) by { SetKindBase(core, c); }
    assert PositionInv(t, to) by { SetKindPosition(core, c); }
  }

  lemma SetKindBase(core: Core, c: ConnId)
    requires MapsInv(core) && StateInv(core, SetKind(c)) && PositionInv(core, SetKind(c))
    ensures StateInv(SetConn(core, c, core.conns[c].(kind := New)), InitConn(c))
  {
    SetConnFacts(core, c, core.conns[c].(kind := New));
  }

  lemma SetKindPosition(core: Core, c: ConnId)
    requires MapsInv(core) && ListInv(core, SetKind(c)) && FateInv(core)
    requires StoreTcpInv(core, SetKind(c)) && SslInv(core, SetKind(c)) && PositionInv(core, SetKind(c))
    ensures PositionInv(SetConn(core, c, core.conns[c].(kind := New)), InitConn(c))
  {
    SetConnFacts(core, c, core.conns[c].(kind := New));
  }

  /** Where initConnection goes once it has looked at m_SSL. */
  function Initialising(core: Core, c: ConnId): (to: Section)
    requires c < |core.conns|
  {
    if core.protocol == Tls && core.conns[c].ssl then WantCert(c) else WantSched(c)
  }

  lemma InitConnKeeps(core: Core, c: ConnId)
    requires CoreInv(core, InitConn(c))
    ensures CoreInv(SetConn(core, c, core.conns[c].(hadSsl := core.conns[c].ssl)), Initialising(core, c))
  {
    var t := SetConn(core, c, core.conns[c].(hadSsl := core.conns[c].ssl));
    var to := Initialising(core, c);
    assert MapsInv(t) && CloseInv(t) by { SetConnKeeps(core, c, core.conns[c].(hadSsl := core.conns[c].ssl)); }
    assert StateInv(t, to) by { InitConnBase(core, c); }
    assert PositionInv(t, to) by { InitConnPosition(core, c); }
  }

  lemma InitConnBase(core: Core, c: ConnId)
    requires MapsInv(core) && StateInv(core, InitConn(c)) && PositionInv(core, InitConn(c))
    ensures StateInv(SetConn(core, c, core.conns[c].(hadSsl := core.conns[c].ssl)), Initialising(core, c))
  {
    SetConnFacts(core, c, core.conns[c].(hadSsl := core.conns[c].ssl));
  }

  lemma InitConnPosition(core: Core, c: ConnId)
    requires MapsInv(core) && ListInv(core, InitConn(c)) && FateInv(core)
    requires StoreTcpInv(core, InitConn(c)) && SslInv(core, InitConn(c)) && PositionInv(core, InitConn(c))
    ensures PositionInv(SetConn(core, c, core.conns[c].(hadSsl := core.conns[c].ssl)), Initialising(core, c))
  {
    SetConnFacts(core, c, core.conns[c].(hadSsl := core.conns[c].ssl));
  }

  lemma WantCertMoves(core: Core, c: ConnId)
    requires CoreInv(core, WantCert(c))
    ensures CoreInv(core, GetCert(c))
  {
  }

  lemma GetCertKeeps(core: Core, c: ConnId, ok: bool)
    requires CoreInv(core, GetCert(c))
    ensures CoreInv(SetConn(core, c, core.conns[c].(ssl := ok)), if ok then Handshake(c) else FailClose(c))
  {
    var t := SetConn(core, c, core.conns[c].(ssl := ok));
    var to := if ok then Handshake(c) else FailClose(c);
    assert MapsInv(t) && CloseInv(t) by { SetConnKeeps(core, c, core.conns[c].(ssl := ok)); }
    assert StateInv(t, to) by { GetCertBase(core, c, ok); }
    assert PositionInv(t, to) by { GetCertPosition(core, c, ok); }
  }

  lemma GetCertBase(core: Core, c: ConnId, ok: bool)
    requires MapsInv(core) && StateInv(core, GetCert(c)) && PositionInv(core, GetCert(c))
    ensures StateInv(SetConn(core, c, core.conns[c].(ssl := ok)), if ok then Handshake(c) else FailClose(c))
  {
    SetConnFacts(core, c, core.conns[c].(ssl := ok));
  }

  lemma GetCertPosition(core: Core, c: ConnId, ok: bool)
    requires MapsInv(core) && ListInv(core, GetCert(c)) && FateInv(core)
    requires StoreTcpInv(core, GetCert(c)) && SslInv(core, GetCert(c)) && PositionInv(core, GetCert(c))
    ensures PositionInv(SetConn(core, c, core.conns[c].(ssl := ok)), if ok then Handshake(c) else FailClose(c))
  {
    SetConnFacts(core, c, core.conns[c].(ssl := ok));
  }

  lemma HandshakeMoves(core: Core, c: ConnId)
    requires CoreInv(core, Handshake(c))
    ensures CoreInv(core, WantSched(c))
  {
  }

  lemma HandshakeFailMoves(core: Core, c: ConnId)
    requires CoreInv(core, Handshake(c))
    ensures CoreInv(core, FailClose(c))
  {
  }

  lemma FailCloseKeeps(core: Core, c: ConnId)
    requires CoreInv(core, FailClose(c))
    ensures CoreInv(CloseOf(core, c), FailNull(c))
  {
    var t := CloseOf(core, c);
    var to := FailNull(c);
    assert MapsInv(t) && CloseInv(t) by { CloseOfKeeps(core, c); }
    assert StateInv(t, to) by { FailCloseBase(core, c); }
    assert PositionInv(t, to) by { FailClosePosition(core, c); }
  }

  lemma FailCloseBase(core: Core, c: ConnId)
    requires MapsInv(core) && StateInv(core, FailClose(c)) && PositionInv(core, FailClose(c))
    ensures StateInv(CloseOf(core, c), FailNull(c))
  {
    CloseOfFacts(core, c);
  }

  lemma FailClosePosition(core: Core, c: ConnId)
    requires MapsInv(core) && ListInv(core, FailClose(c)) && FateInv(core)
    requires StoreTcpInv(core, FailClose(c)) && SslInv(core, FailClose(c)) && PositionInv(core, FailClose(c))
    ensures PositionInv(CloseOf(core, c), FailNull(c))
  {
    CloseOfFacts(core, c);
  }

  lemma FailNullKeeps(core: Core, c: ConnId)
    requires CoreInv(core, FailNull(c))
    ensures CoreInv(SetConn(core, c, core.conns[c].(ssl := false)), WantSched(c))
  {
    var t := SetConn(core, c, core.conns[c].(ssl := false));
    var to := WantSched(c);
    assert MapsInv(t) && CloseInv(t) by { SetConnKeeps(core, c, core.conns[c].(ssl := false)); }
    assert StateInv(t, to) by { FailNullBase(core, c); }
    assert PositionInv(t, to) by { FailNullPosition(core, c); }
  }

  lemma FailNullBase(core: Core, c: ConnId)
    requires MapsInv(core) && StateInv(core, FailNull(c)) && PositionInv(core, FailNull(c))
    ensures StateInv(SetConn(core, c, core.conns[c].(ssl := false)), WantSched(c))
  {
    SetConnFacts(core, c, core.conns[c].(ssl := false));
  }

  lemma FailNullPosition(core: Core, c: ConnId)
    requires MapsInv(core) && ListInv(core, FailNull(c)) && FateInv(core)
    requires StoreTcpInv(core, FailNull(c)) && SslInv(core, FailNull(c)) && PositionInv(core, FailNull(c))
    ensures PositionInv(SetConn(core, c, core.conns[c].(ssl := false)), WantSched(c))
  {
    SetConnFacts(core, c, core.conns[c].(ssl := false));
  }

  lemma WantSchedMoves(core: Core, c: ConnId)
    requires CoreInv(core, WantSched(c))
    ensures CoreInv(core, Advance(c))
  {
  }

  lemma AdvanceMoves(core: Core, c: ConnId, p: PollerId)
    requires CoreInv(core, Advance(c)) && p < |core.interest|
    ensures CoreInv(core, WantPoll(c, p))
  {
  }

  lemma WantPollMoves(core: Core, c: ConnId, p: PollerId)
    requires CoreInv(core, WantPoll(c, p))
    ensures CoreInv(core, EpollAdd(c, p))
  {
  }

  lemma EpollAddKeeps(core: Core, c: ConnId, p: PollerId)
    requires CoreInv(core, EpollAdd(c, p)) && core.conns[c].fd in core.open && core.conns[c].fd !in core.interest[p]
    ensures CoreInv(ListConn(core, c, p), SetHandler(c, p))
  {
    var t := ListConn(core, c, p);
    var to := SetHandler(c, p);
    assert MapsInv(t) && CloseInv(t) by { ListConnFacts(core, c, p); }
    assert StateInv(t, to) by { EpollAddBase(core, c, p); }
    assert PositionInv(t, to) by { EpollAddPosition(core, c, p); }
  }

  lemma EpollAddBase(core: Core, c: ConnId, p: PollerId)
    requires MapsInv(core) && StateInv(core, EpollAdd(c, p)) && PositionInv(core, EpollAdd(c, p))
    requires core.conns[c].fd in core.open && core.conns[c].fd !in core.interest[p]
    ensures StateInv(ListConn(core, c, p), SetHandler(c, p))
  {
    EpollAddLists(core, c, p);
    EpollAddFates(core, c, p);
  }

  lemma EpollAddLists(core: Core, c: ConnId, p: PollerId)
    requires MapsInv(core) && ListInv(core, EpollAdd(c, p)) && KeptInv(core, EpollAdd(c, p))
    requires AddingInv(core, EpollAdd(c, p))
    requires core.conns[c].fd in core.open && core.conns[c].fd !in core.interest[p]
    ensures ListInv(ListConn(core, c, p), SetHandler(c, p)) && KeptInv(ListConn(core, c, p), SetHandler(c, p))
  {
    ListConnFacts(core, c, p);
  }

  lemma EpollAddFates(core: Core, c: ConnId, p: PollerId)
    requires MapsInv(core) && HandlerInv(core) && FateInv(core)
    requires StoreTcpInv(core, EpollAdd(c, p)) && SslInv(core, EpollAdd(c, p)) && AddingInv(core, EpollAdd(c, p))
    requires core.conns[c].fd in core.open && core.conns[c].fd !in core.interest[p]
    ensures var t, to := ListConn(core, c, p), SetHandler(c, p);
            HandlerInv(t) && FateInv(t) && StoreTcpInv(t, to) && SslInv(t, to)
  {
    ListConnFacts(core, c, p);
  }

  lemma EpollAddPosition(core: Core, c: ConnId, p: PollerId)
    requires MapsInv(core) && ListInv(core, EpollAdd(c, p)) && FateInv(core)
    requires StoreTcpInv(core, EpollAdd(c, p)) && SslInv(core, EpollAdd(c, p))
    requires PositionInv(core, EpollAdd(c, p)) && core.conns[c].fd in core.open
    requires core.conns[c].fd !in core.interest[p]
    ensures PositionInv(ListConn(core, c, p), SetHandler(c, p))
  {
    ListConnFacts(core, c, p);
  }

  lemma EpollFailMoves(core: Core, c: ConnId, p: PollerId)
    requires CoreInv(core, EpollAdd(c, p))
    ensures CoreInv(core, UnlockSched(c))
  {
  }

  lemma SetHandlerKeeps(core: Core, c: ConnId, p: PollerId)
    requires CoreInv(core, SetHandler(c, p))
    ensures CoreInv(SetConn(core, c, core.conns[c].(handler := Some(p))), UnlockSched(c))
  {
    var t := SetConn(core, c, core.conns[c].(handler := Some(p)));
    var to := UnlockSched(c);
    assert MapsInv(t) && CloseInv(t) by { SetConnKeeps(core, c, core.conns[c].(handler := Some(p))); }
    assert StateInv(t, to) by { SetHandlerBase(core, c, p); }
    assert PositionInv(t, to) by { SetHandlerPosition(core, c, p); }
  }

  lemma SetHandlerBase(core: Core, c: ConnId, p: PollerId)
    requires MapsInv(core) && StateInv(core, SetHandler(c, p)) && PositionInv(core, SetHandler(c, p))
    ensures StateInv(SetConn(core, c, core.conns[c].(handler := Some(p))), UnlockSched(c))
  {
    SetHandlerLists(core, c, p);
    SetHandlerFates(core, c, p);
  }

  lemma SetHandlerLists(core: Core, c: ConnId, p: PollerId)
    requires ListInv(core, SetHandler(c, p)) && KeptInv(core, SetHandler(c, p)) && AddingInv(core, SetHandler(c, p))
    ensures var t := SetConn(core, c, core.conns[c].(handler := Some(p)));
            ListInv(t, UnlockSched(c)) && KeptInv(t, UnlockSched(c))
  {
    SetConnFacts(core, c, core.conns[c].(handler := Some(p)));
  }

  lemma SetHandlerFates(core: Core, c: ConnId, p: PollerId)
    requires MapsInv(core) && HandlerInv(core) && FateInv(core) && AddingInv(core, SetHandler(c, p))
    requires StoreTcpInv(core, SetHandler(c, p)) && SslInv(core, SetHandler(c, p))
    ensures var t := SetConn(core, c, core.conns[c].(handler := Some(p)));
            HandlerInv(t) && FateInv(t) && StoreTcpInv(t, UnlockSched(c)) && SslInv(t, UnlockSched(c))
  {
    SetConnFacts(core, c, core.conns[c].(handler := Some(p)));
  }

  lemma SetHandlerPosition(core: Core, c: ConnId, p: PollerId)
    requires MapsInv(core) && ListInv(core, SetHandler(c, p)) && FateInv(core)
    requires StoreTcpInv(core, SetHandler(c, p)) && SslInv(core, SetHandler(c, p))
    requires PositionInv(core, SetHandler(c, p))
    ensures PositionInv(SetConn(core, c, core.conns[c].(handler := Some(p))), UnlockSched(c))
  {
    SetConnFacts(core, c, core.conns[c].(handler := Some(p)));
  }

  lemma UnlockSchedMoves(core: Core, c: ConnId)
    requires CoreInv(core, UnlockSched(c))
    ensures CoreInv(core, Insert(c))
  {
  }

  /** The insert may overwrite a map entry, but only one whose connection is already closed. */
  lemma InsertKeeps(core: Core, c: ConnId)
    requires CoreInv(core, Insert(c))
    ensures CoreInv(StoreConn(core, c), WantQueue(c))
  {
    var t := StoreConn(core, c);
    var to := WantQueue(c);
    assert MapsInv(t) && CloseInv(t) by { StoreConnFacts(core, c); }
    assert StateInv(t, to) by { InsertBase(core, c); }
    assert PositionInv(t, to) by { InsertPosition(core, c); }
  }

  lemma InsertBase(core: Core, c: ConnId)
    requires MapsInv(core) && StateInv(core, Insert(c)) && PositionInv(core, Insert(c))
    ensures StateInv(StoreConn(core, c), WantQueue(c))
  {
    InsertLists(core, c);
    InsertFates(core, c);
  }

  lemma InsertLists(core: Core, c: ConnId)
    requires MapsInv(core) && ListInv(core, Insert(c)) && KeptInv(core, Insert(c)) && AddingInv(core, Insert(c))
    ensures ListInv(StoreConn(core, c), WantQueue(c)) && KeptInv(StoreConn(core, c), WantQueue(c))
  {
    StoreConnFacts(core, c);
    var t := StoreConn(core, c);
    forall p: PollerId, d: ConnId | p < |t.interest| && Listed(t, p, d) ensures Stored(t, d) {
      assert Listed(core, p, d) && Owns(core, d);
    }
  }

  lemma InsertFates(core: Core, c: ConnId)
    requires MapsInv(core) && HandlerInv(core) && FateInv(core) && StoreTcpInv(core, Insert(c))
    requires SslInv(core, Insert(c))
    requires AddingInv(core, Insert(c)) && InitInv(core, Insert(c))
    ensures var t := StoreConn(core, c);
            HandlerInv(t) && FateInv(t) && StoreTcpInv(t, WantQueue(c)) && SslInv(t, WantQueue(c))
  {
    StoreConnFacts(core, c);
  }

  lemma InsertPosition(core: Core, c: ConnId)
    requires MapsInv(core) && ListInv(core, Insert(c)) && FateInv(core)
    requires StoreTcpInv(core, Insert(c)) && SslInv(core, Insert(c)) && PositionInv(core, Insert(c))
    ensures PositionInv(StoreConn(core, c), WantQueue(c))
  {
    StoreConnFacts(core, c);
  }

  lemma WantQueueMoves(core: Core, c: ConnId)
    requires CoreInv(core, WantQueue(c))
    ensures CoreInv(core, PushNew(c))
  {
    assert BaseInv(core, PushNew(c)) by { WantQueueMovesBase(core, c); }
  }

  lemma WantQueueMovesBase(core: Core, c: ConnId)
    requires BaseInv(core, WantQueue(c)) && PositionInv(core, WantQueue(c))
    ensures BaseInv(core, PushNew(c))
  {
  }

  lemma PushNewMoves(core: Core, c: ConnId)
    requires CoreInv(core, PushNew(c))
    ensures CoreInv(core, Leave)
  {
    assert BaseInv(core, Leave) by { PushNewMovesBase(core, c); }
  }

  lemma PushNewMovesBase(core: Core, c: ConnId)
    requires BaseInv(core, PushNew(c)) && PositionInv(core, PushNew(c))
    ensures BaseInv(core, Leave)
  {
  }

  lemma LeaveMoves(core: Core)
    requires CoreInv(core, Leave)
    ensures CoreInv(core, Nobody)
  {
    assert BaseInv(core, Nobody) by { LeaveMovesBase(core); }
  }

  lemma LeaveMovesBase(core: Core)
    requires BaseInv(core, Leave) && PositionInv(core, Leave)
    ensures BaseInv(core, Nobody)
  {
  }

  // ---------------------------------------------------------------- the remover

  lemma SetClosedKeeps(core: Core, p: PollerId, c: ConnId)
    requires CoreInv(core, SetClosed(p, c))
    ensures CoreInv(SetConn(core, c, core.conns[c].(kind := Closed)), ReadHandler(p, c))
  {
    var t := SetConn(core, c, core.conns[c].(kind := Closed));
    var to := ReadHandler(p, c);
    assert MapsInv(t) && CloseInv(t) by { SetConnKeeps(core, c, core.conns[c].(kind := Closed)); }
    assert StateInv(t, to) by { SetClosedBase(core, p, c); }
    assert PositionInv(t, to) by { SetClosedPosition(core, p, c); }
  }

  lemma SetClosedBase(core: Core, p: PollerId, c: ConnId)
    requires MapsInv(core) && StateInv(core, SetClosed(p, c)) && PositionInv(core, SetClosed(p, c))
    ensures StateInv(SetConn(core, c, core.conns[c].(kind := Closed)), ReadHandler(p, c))
  {
    SetConnFacts(core, c, core.conns[c].(kind := Closed));
  }

  lemma SetClosedPosition(core: Core, p: PollerId, c: ConnId)
    requires MapsInv(core) && ListInv(core, SetClosed(p, c)) && FateInv(core)
    requires StoreTcpInv(core, SetClosed(p, c)) && SslInv(core, SetClosed(p, c)) && PositionInv(core, SetClosed(p, c))
    ensures PositionInv(SetConn(core, c, core.conns[c].(kind := Closed)), ReadHandler(p, c))
  {
    SetConnFacts(core, c, core.conns[c].(kind := Closed));
  }

  /** Where removeSocket goes once it has looked at the handler pointer. */
  function FoundHandler(core: Core, p: PollerId, c: ConnId): (to: Section)
    requires c < |core.conns|
  {
    if core.conns[c].handler.Some? then WantDelete(p, c, core.conns[c].handler.value) else WantQueueClosed(p, c)
  }

  lemma ReadHandlerMoves(core: Core, p: PollerId, c: ConnId)
    requires CoreInv(core, ReadHandler(p, c))
    ensures CoreInv(core, FoundHandler(core, p, c))
  {
    assert BaseInv(core, FoundHandler(core, p, c)) by {
      ReadHandlerMovesBase(core, p, c);
    }
  }

  lemma ReadHandlerMovesBase(core: Core, p: PollerId, c: ConnId)
    requires BaseInv(core, ReadHandler(p, c)) && PositionInv(core, ReadHandler(p, c))
    ensures BaseInv(core, FoundHandler(core, p, c))
  {
  }

  lemma WantDeleteMoves(core: Core, p: PollerId, c: ConnId, h: PollerId)
    requires CoreInv(core, WantDelete(p, c, h))
    ensures CoreInv(core, Delete(p, c, h))
  {
  }

  lemma DeleteKeeps(core: Core, p: PollerId, c: ConnId, h: PollerId)
    requires CoreInv(core, Delete(p, c, h)) && h < |core.interest|
    ensures CoreInv(Unlist(core, c, h), CloseConn(p, c))
  {
    var t := Unlist(core, c, h);
    var to := CloseConn(p, c);
    assert MapsInv(t) && CloseInv(t) by { UnlistFacts(core, c, h); }
    assert StateInv(t, to) by { DeleteBase(core, p, c, h); }
    assert PositionInv(t, to) by { DeletePosition(core, p, c, h); }
  }

  lemma DeleteBase(core: Core, p: PollerId, c: ConnId, h: PollerId)
    requires MapsInv(core) && StateInv(core, Delete(p, c, h)) && PositionInv(core, Delete(p, c, h))
    requires h < |core.interest|
    ensures StateInv(Unlist(core, c, h), CloseConn(p, c))
  {
    UnlistFacts(core, c, h);
  }

  lemma DeletePosition(core: Core, p: PollerId, c: ConnId, h: PollerId)
    requires MapsInv(core) && ListInv(core, Delete(p, c, h)) && FateInv(core)
    requires StoreTcpInv(core, Delete(p, c, h)) && SslInv(core, Delete(p, c, h))
    requires PositionInv(core, Delete(p, c, h)) && h < |core.interest|
    ensures PositionInv(Unlist(core, c, h), CloseConn(p, c))
  {
    UnlistFacts(core, c, h);
  }

  lemma CloseTcpKeeps(core: Core, p: PollerId, c: ConnId)
    requires CoreInv(core, CloseConn(p, c)) && core.protocol == Tcp
    ensures CoreInv(CloseOf(core, c), WantQueueClosed(p, c))
  {
    var t := CloseOf(core, c);
    var to := WantQueueClosed(p, c);
    assert MapsInv(t) && CloseInv(t) by { CloseOfKeeps(core, c); }
    assert StateInv(t, to) by { CloseTcpBase(core, p, c); }
    assert PositionInv(t, to) by { CloseTcpPosition(core, p, c); }
  }

  lemma CloseTcpBase(core: Core, p: PollerId, c: ConnId)
    requires MapsInv(core) && StateInv(core, CloseConn(p, c)) && PositionInv(core, CloseConn(p, c))
    requires core.protocol == Tcp
    ensures StateInv(CloseOf(core, c), WantQueueClosed(p, c))
  {
    CloseOfFacts(core, c);
  }

  lemma CloseTcpPosition(core: Core, p: PollerId, c: ConnId)
    requires MapsInv(core) && ListInv(core, CloseConn(p, c)) && FateInv(core)
    requires StoreTcpInv(core, CloseConn(p, c)) && SslInv(core, CloseConn(p, c))
    requires PositionInv(core, CloseConn(p, c)) && core.protocol == Tcp
    ensures PositionInv(CloseOf(core, c), WantQueueClosed(p, c))
  {
    CloseOfFacts(core, c);
  }

  lemma CloseTlsMoves(core: Core, p: PollerId, c: ConnId)
    requires CoreInv(core, CloseConn(p, c)) && core.protocol == Tls && core.conns[c].ssl
    ensures CoreInv(core, WantSocket(p, c))
  {
    assert BaseInv(core, WantSocket(p, c)) by { CloseTlsMovesBase(core, p, c); }
  }

  lemma CloseTlsMovesBase(core: Core, p: PollerId, c: ConnId)
    requires BaseInv(core, CloseConn(p, c)) && PositionInv(core, CloseConn(p, c)) && core.protocol == Tls
    requires core.conns[c].ssl
    ensures BaseInv(core, WantSocket(p, c))
  {
  }

  lemma CloseSkipMoves(core: Core, p: PollerId, c: ConnId)
    requires CoreInv(core, CloseConn(p, c)) && core.protocol == Tls && !core.conns[c].ssl
    ensures CoreInv(core, WantQueueClosed(p, c))
  {
    assert BaseInv(core, WantQueueClosed(p, c)) by { CloseSkipMovesBase(core, p, c); }
  }

  lemma CloseSkipMovesBase(core: Core, p: PollerId, c: ConnId)
    requires BaseInv(core, CloseConn(p, c)) && PositionInv(core, CloseConn(p, c)) && core.protocol == Tls
    requires !core.conns[c].ssl
    ensures BaseInv(core, WantQueueClosed(p, c))
  {
  }

  lemma WantSocketMoves(core: Core, p: PollerId, c: ConnId)
    requires CoreInv(core, WantSocket(p, c))
    ensures CoreInv(core, CloseFd(p, c))
  {
  }

  lemma CloseFdKeeps(core: Core, p: PollerId, c: ConnId)
    requires CoreInv(core, CloseFd(p, c))
    ensures CoreInv(CloseOf(core, c), NullSsl(p, c))
  {
    var t := CloseOf(core, c);
    var to := NullSsl(p, c);
    assert MapsInv(t) && CloseInv(t) by { CloseOfKeeps(core, c); }
    assert StateInv(t, to) by { CloseFdBase(core, p, c); }
    assert PositionInv(t, to) by { CloseFdPosition(core, p, c); }
  }

  lemma CloseFdBase(core: Core, p: PollerId, c: ConnId)
    requires MapsInv(core) && StateInv(core, CloseFd(p, c)) && PositionInv(core, CloseFd(p, c))
    ensures StateInv(CloseOf(core, c), NullSsl(p, c))
  {
    CloseOfFacts(core, c);
  }

  lemma CloseFdPosition(core: Core, p: PollerId, c: ConnId)
    requires MapsInv(core) && ListInv(core, CloseFd(p, c)) && FateInv(core)
    requires StoreTcpInv(core, CloseFd(p, c)) && SslInv(core, CloseFd(p, c)) && PositionInv(core, CloseFd(p, c))
    ensures PositionInv(CloseOf(core, c), NullSsl(p, c))
  {
    CloseOfFacts(core, c);
  }

  lemma NullSslKeeps(core: Core, p: PollerId, c: ConnId)
    requires CoreInv(core, NullSsl(p, c))
    ensures CoreInv(SetConn(core, c, core.conns[c].(ssl := false)), WantQueueClosed(p, c))
  {
    var t := SetConn(core, c, core.conns[c].(ssl := false));
    var to := WantQueueClosed(p, c);
    assert MapsInv(t) && CloseInv(t) by { SetConnKeeps(core, c, core.conns[c].(ssl := false)); }
    assert StateInv(t, to) by { NullSslBase(core, p, c); }
    assert PositionInv(t, to) by { NullSslPosition(core, p, c); }
  }

  lemma NullSslBase(core: Core, p: PollerId, c: ConnId)
    requires MapsInv(core) && StateInv(core, NullSsl(p, c)) && PositionInv(core, NullSsl(p, c))
    ensures StateInv(SetConn(core, c, core.conns[c].(ssl := false)), WantQueueClosed(p, c))
  {
    SetConnFacts(core, c, core.conns[c].(ssl := false));
  }

  lemma NullSslPosition(core: Core, p: PollerId, c: ConnId)
    requires MapsInv(core) && ListInv(core, NullSsl(p, c)) && FateInv(core)
    requires StoreTcpInv(core, NullSsl(p, c)) && SslInv(core, NullSsl(p, c)) && PositionInv(core, NullSsl(p, c))
    ensures PositionInv(SetConn(core, c, core.conns[c].(ssl := false)), WantQueueClosed(p, c))
  {
    SetConnFacts(core, c, core.conns[c].(ssl := false));
  }

  lemma WantQueueClosedMoves(core: Core, p: PollerId, c: ConnId)
    requires CoreInv(core, WantQueueClosed(p, c))
    ensures CoreInv(core, PushClosed(p, c))
  {
  }

  lemma PushClosedMoves(core: Core, p: PollerId, c: ConnId)
    requires CoreInv(core, PushClosed(p, c))
    ensures CoreInv(core, Erase(p, c))
  {
  }

  lemma EraseKeeps(core: Core, p: PollerId, c: ConnId)
    requires CoreInv(core, Erase(p, c))
    ensures CoreInv(EraseConn(core, c), LeaveRemove(p))
  {
    var t := EraseConn(core, c);
    var to := LeaveRemove(p);
    assert MapsInv(t) && CloseInv(t) by { EraseConnFacts(core, c); }
    assert StateInv(t, to) by { EraseBase(core, p, c); }
    assert PositionInv(t, to) by { ErasePosition(core, p, c); }
  }

  lemma EraseBase(core: Core, p: PollerId, c: ConnId)
    requires MapsInv(core) && StateInv(core, Erase(p, c)) && PositionInv(core, Erase(p, c))
    ensures StateInv(EraseConn(core, c), LeaveRemove(p))
  {
    EraseConnFacts(core, c);
  }

  lemma ErasePosition(core: Core, p: PollerId, c: ConnId)
    requires c < |core.conns|
    ensures PositionInv(EraseConn(core, c), LeaveRemove(p))
  {
  }

  lemma LeaveRemoveMoves(core: Core, p: PollerId)
    requires CoreInv(core, LeaveRemove(p))
    ensures CoreInv(core, Nobody)
  {
    assert BaseInv(core, Nobody) by { LeaveRemoveMovesBase(core, p); }
  }

  lemma LeaveRemoveMovesBase(core: Core, p: PollerId)
    requires BaseInv(core, LeaveRemove(p)) && PositionInv(core, LeaveRemove(p))
    ensures BaseInv(core, Nobody)
  {
  }

  // ---------------------------------------------------------------- closing everything

  lemma VisitTcpKeeps(core: Core, todo: set<Fd>, fd: Fd)
    requires CoreInv(core, Visit(todo)) && core.protocol == Tcp && fd in todo && fd in core.store
    requires core.store[fd] < |core.conns|
    ensures CoreInv(CloseOf(core, core.store[fd]), Visit(todo - {fd}))
  {
    var t := CloseOf(core, core.store[fd]);
    var to := Visit(todo - {fd});
    assert MapsInv(t) && CloseInv(t) by { CloseOfKeeps(core, core.store[fd]); }
    assert StateInv(t, to) by { VisitTcpBase(core, todo, fd); }
    assert PositionInv(t, to) by { VisitTcpPosition(core, todo, fd); }
  }

  lemma VisitTcpBase(core: Core, todo: set<Fd>, fd: Fd)
    requires MapsInv(core) && StateInv(core, Visit(todo)) && core.protocol == Tcp && fd in todo && fd in core.store
    requires core.store[fd] < |core.conns|
    ensures StateInv(CloseOf(core, core.store[fd]), Visit(todo - {fd}))
  {
    var c := core.store[fd];
    VisitedOwns(core, todo, fd);
    VisitedLists(core, c, todo, todo - {fd});
    VisitedKept(core, c, todo, todo - {fd});
    VisitedFates(core, c, todo, fd);
  }

  lemma VisitedLists(core: Core, c: ConnId, todo: set<Fd>, rest: set<Fd>)
    requires MapsInv(core) && ListedOwn(core) && Owns(core, c) && ListInv(core, Visit(todo))
    ensures ListInv(CloseOf(core, c), Visit(rest))
  {
    CloseOfFacts(core, c);
    var t := CloseOf(core, c);
    forall p: PollerId, d: ConnId | p < |t.interest| && Listed(t, p, d)
      ensures Owns(t, d) && core.conns[d].handler == Some(p) && Stored(t, d)
      ensures core.conns[d].kind != Blank && core.conns[d].kind != Closed
    {
      assert Listed(core, p, d) && d != c;
    }
  }

  lemma VisitedKept(core: Core, c: ConnId, todo: set<Fd>, rest: set<Fd>)
    requires MapsInv(core) && ListedOwn(core) && Owns(core, c)
    requires KeptInv(core, Visit(todo))
    ensures KeptInv(CloseOf(core, c), Visit(rest))
  {
    CloseOfFacts(core, c);
  }

  lemma VisitedFates(core: Core, c: ConnId, todo: set<Fd>, fd: Fd)
    requires MapsInv(core) && ListedOwn(core) && Owns(core, c) && core.conns[c].fd == fd && core.protocol == Tcp
    requires HandlerInv(core) && FateInv(core) && StoreTcpInv(core, Visit(todo))
    ensures var t := CloseOf(core, c);
            HandlerInv(t) && FateInv(t) && StoreTcpInv(t, Visit(todo - {fd})) && SslInv(t, Visit(todo - {fd}))
  {
    CloseOfFacts(core, c);
  }

  lemma VisitTcpPosition(core: Core, todo: set<Fd>, fd: Fd)
    requires MapsInv(core) && ListInv(core, Visit(todo)) && FateInv(core)
    requires StoreTcpInv(core, Visit(todo)) && SslInv(core, Visit(todo)) && PositionInv(core, Visit(todo))
    requires core.protocol == Tcp && fd in todo && fd in core.store && core.store[fd] < |core.conns|
    ensures PositionInv(CloseOf(core, core.store[fd]), Visit(todo - {fd}))
  {
    CloseOfFacts(core, core.store[fd]);
  }

  lemma VisitedOwns(core: Core, todo: set<Fd>, fd: Fd)
    requires StoreTcpInv(core, Visit(todo)) && core.protocol == Tcp && fd in todo && fd in core.store
    ensures Owns(core, core.store[fd])
  {
  }

  /** Under TLS the list of what is still to visit matters to the position only. */
  lemma VisitAnything(core: Core, todo: set<Fd>, rest: set<Fd>)
    requires BaseInv(core, Visit(todo)) && core.protocol == Tls
    ensures BaseInv(core, Visit(rest))
  {
  }

  lemma VisitTlsMoves(core: Core, todo: set<Fd>, fd: Fd)
    requires CoreInv(core, Visit(todo)) && core.protocol == Tls && fd in todo && fd in core.store
    requires core.store[fd] < |core.conns| && core.conns[core.store[fd]].ssl
    ensures CoreInv(core, WantSocketAll(core.store[fd], todo - {fd}))
  {
    assert BaseInv(core, WantSocketAll(core.store[fd], todo - {fd})) by {
      VisitTlsMovesBase(core, core.store[fd], todo, todo - {fd});
    }
  }

  lemma VisitTlsMovesBase(core: Core, c: ConnId, todo: set<Fd>, rest: set<Fd>)
    requires BaseInv(core, Visit(todo)) && core.protocol == Tls
    ensures BaseInv(core, WantSocketAll(c, rest))
  {
    VisitTlsMovesLists(core, c, todo, rest);
    assert StoreTcpInv(core, WantSocketAll(c, rest)) && SslInv(core, WantSocketAll(c, rest));
  }

  lemma VisitTlsMovesLists(core: Core, c: ConnId, todo: set<Fd>, rest: set<Fd>)
    requires ListInv(core, Visit(todo)) && KeptInv(core, Visit(todo))
    ensures ListInv(core, WantSocketAll(c, rest)) && KeptInv(core, WantSocketAll(c, rest))
  {
  }

  lemma VisitSkipMoves(core: Core, todo: set<Fd>, fd: Fd)
    requires CoreInv(core, Visit(todo)) && core.protocol == Tls && fd in todo && fd in core.store
    requires core.store[fd] < |core.conns| && !core.conns[core.store[fd]].ssl
    ensures CoreInv(core, Visit(todo - {fd}))
  {
    assert BaseInv(core, Visit(todo - {fd})) by { VisitAnything(core, todo, todo - {fd}); }
    assert PositionInv(core, Visit(todo - {fd})) by { VisitSkipPosition(core, todo, fd); }
  }

  /** What has no SSL object was closed before or is never closed. */
  lemma VisitSkipPosition(core: Core, todo: set<Fd>, fd: Fd)
    requires MapsInv(core) && FateInv(core) && PositionInv(core, Visit(todo)) && core.protocol == Tls
    requires fd in todo && fd in core.store && core.store[fd] < |core.conns| && !core.conns[core.store[fd]].ssl
    ensures PositionInv(core, Visit(todo - {fd}))
  {
    assert core.store[fd] in core.inserted && FateOk(core, core.store[fd]);
  }

  lemma WantSocketAllMoves(core: Core, c: ConnId, todo: set<Fd>)
    requires CoreInv(core, WantSocketAll(c, todo))
    ensures CoreInv(core, CloseFdAll(c, todo))
  {
  }

  lemma CloseFdAllKeeps(core: Core, c: ConnId, todo: set<Fd>)
    requires CoreInv(core, CloseFdAll(c, todo))
    ensures CoreInv(CloseOf(core, c), NullSslAll(c, todo))
  {
    var t := CloseOf(core, c);
    var to := NullSslAll(c, todo);
    assert MapsInv(t) && CloseInv(t) by { CloseOfKeeps(core, c); }
    assert StateInv(t, to) by { CloseFdAllBase(core, c, todo); }
    assert PositionInv(t, to) by { CloseFdAllPosition(core, c, todo); }
  }

  lemma CloseFdAllBase(core: Core, c: ConnId, todo: set<Fd>)
    requires MapsInv(core) && StateInv(core, CloseFdAll(c, todo)) && PositionInv(core, CloseFdAll(c, todo))
    ensures StateInv(CloseOf(core, c), NullSslAll(c, todo))
  {
    CloseOfFacts(core, c);
  }

  lemma CloseFdAllPosition(core: Core, c: ConnId, todo: set<Fd>)
    requires MapsInv(core) && ListInv(core, CloseFdAll(c, todo)) && FateInv(core)
    requires StoreTcpInv(core, CloseFdAll(c, todo)) && SslInv(core, CloseFdAll(c, todo))
    requires PositionInv(core, CloseFdAll(c, todo))
    ensures PositionInv(CloseOf(core, c), NullSslAll(c, todo))
  {
    CloseOfFacts(core, c);
  }

  lemma NullSslAllKeeps(core: Core, c: ConnId, todo: set<Fd>)
    requires CoreInv(core, NullSslAll(c, todo))
    ensures CoreInv(SetConn(core, c, core.conns[c].(ssl := false)), Visit(todo))
  {
    var t := SetConn(core, c, core.conns[c].(ssl := false));
    var to := Visit(todo);
    assert MapsInv(t) && CloseInv(t) by { SetConnKeeps(core, c, core.conns[c].(ssl := false)); }
    assert StateInv(t, to) by { NullSslAllBase(core, c, todo); }
    assert PositionInv(t, to) by { NullSslAllPosition(core, c, todo); }
  }

  lemma NullSslAllBase(core: Core, c: ConnId, todo: set<Fd>)
    requires MapsInv(core) && StateInv(core, NullSslAll(c, todo)) && PositionInv(core, NullSslAll(c, todo))
    ensures StateInv(SetConn(core, c, core.conns[c].(ssl := false)), Visit(todo))
  {
    SetConnFacts(core, c, core.conns[c].(ssl := false));
  }

  lemma NullSslAllPosition(core: Core, c: ConnId, todo: set<Fd>)
    requires MapsInv(core) && ListInv(core, NullSslAll(c, todo)) && FateInv(core)
    requires StoreTcpInv(core, NullSslAll(c, todo)) && SslInv(core, NullSslAll(c, todo))
    requires PositionInv(core, NullSslAll(c, todo))
    ensures PositionInv(SetConn(core, c, core.conns[c].(ssl := false)), Visit(todo))
  {
    SetConnFacts(core, c, core.conns[c].(ssl := false));
  }

  lemma ClearKeeps(core: Core)
    requires CoreInv(core, Visit({}))
    ensures CoreInv(core.(store := map[]), LeaveAll)
  {
    var t := core.(store := map[]);
    var to := LeaveAll;
    assert MapsInv(t) && CloseInv(t) by { ClearFacts(core); }
    assert StateInv(t, to) by { ClearBase(core); }
    assert PositionInv(t, to) by { ClearPosition(core); }
  }

  lemma ClearBase(core: Core)
    requires MapsInv(core) && StateInv(core, Visit({})) && PositionInv(core, Visit({}))
    ensures StateInv(core.(store := map[]), LeaveAll)
  {
    ClearFacts(core);
  }

  lemma ClearPosition(core: Core)
    requires MapsInv(core) && ListInv(core, Visit({})) && FateInv(core)
    requires StoreTcpInv(core, Visit({})) && SslInv(core, Visit({})) && PositionInv(core, Visit({}))
    ensures PositionInv(core.(store := map[]), LeaveAll)
  {
    ClearFacts(core);
  }

  lemma LeaveAllMoves(core: Core)
    requires CoreInv(core, LeaveAll)
    ensures CoreInv(core, Finished)
  {
  }

  // ---------------------------------------------------------------- together

  /** The acceptor's moves, from lock to unlock. */
  lemma AcceptorKeeps(core: Core, at: Section, next: PollerId, ok: bool, fd: Fd, ssl: bool)
    requires CoreInv(core, at) && Possible(core, at, ok, fd) && (at.Advance? ==> next < |core.interest|)
    requires AcceptorInside(at)
    ensures CoreInv(Effect(core, at, ok, fd, ssl), After(core, at, next, ok, fd))
  {
    if at == Accept || BeforeInit(at) {
      OpeningKeeps(core, at, next, ok, fd, ssl);
    } else if Opening(at) {
      HandshakingKeeps(core, at, next, ok, fd, ssl);
    } else if Scheduling(at) {
      SchedulingKeeps(core, at, next, ok, fd, ssl);
    } else {
      RegisteringKeeps(core, at, next, ok, fd, ssl);
    }
  }

  lemma OpeningKeeps(core: Core, at: Section, next: PollerId, ok: bool, fd: Fd, ssl: bool)
    requires CoreInv(core, at) && Possible(core, at, ok, fd) && (at == Accept || BeforeInit(at))
    ensures CoreInv(Effect(core, at, ok, fd, ssl), After(core, at, next, ok, fd))
  {
    match at
    case Accept => if ok { AcceptKeeps(core, fd, ssl); } else { AcceptFailMoves(core); }
    case Convert(c) => if ok { ConvertMoves(core, c); } else { ConvertFailMoves(core, c); }
    case SetKind(c) => SetKindKeeps(core, c);
    case InitConn(c) => InitConnKeeps(core, c);
  }

  lemma HandshakingKeeps(core: Core, at: Section, next: PollerId, ok: bool, fd: Fd, ssl: bool)
    requires CoreInv(core, at) && Possible(core, at, ok, fd) && (InsideInit(at) || at.FailNull?)
    ensures CoreInv(Effect(core, at, ok, fd, ssl), After(core, at, next, ok, fd))
  {
    match at
    case WantCert(c) => WantCertMoves(core, c);
    case GetCert(c) => GetCertKeeps(core, c, ok);
    case Handshake(c) => if ok { HandshakeMoves(core, c); } else { HandshakeFailMoves(core, c); }
    case FailClose(c) => FailCloseKeeps(core, c);
    case FailNull(c) => FailNullKeeps(core, c);
  }

  lemma SchedulingKeeps(core: Core, at: Section, next: PollerId, ok: bool, fd: Fd, ssl: bool)
    requires CoreInv(core, at) && Possible(core, at, ok, fd) && Scheduling(at) && (at.Advance? ==> next < |core.interest|)
    ensures CoreInv(Effect(core, at, ok, fd, ssl), After(core, at, next, ok, fd))
  {
    match at
    case WantSched(c) => WantSchedMoves(core, c);
    case Advance(c) => AdvanceMoves(core, c, next);
    case WantPoll(c, p) => WantPollMoves(core, c, p);
    case EpollAdd(c, p) => if ok { EpollAddKeeps(core, c, p); } else { EpollFailMoves(core, c, p); }
  }

  lemma RegisteringKeeps(core: Core, at: Section, next: PollerId, ok: bool, fd: Fd, ssl: bool)
    requires CoreInv(core, at) && Possible(core, at, ok, fd) && (Registering(at) || at == Leave)
    ensures CoreInv(Effect(core, at, ok, fd, ssl), After(core, at, next, ok, fd))
  {
    match at
    case SetHandler(c, p) => SetHandlerKeeps(core, c, p);
    case UnlockSched(c) => UnlockSchedMoves(core, c);
    case Insert(c) => InsertKeeps(core, c);
    case WantQueue(c) => WantQueueMoves(core, c);
    case PushNew(c) => PushNewMoves(core, c);
    case Leave => LeaveMoves(core);
  }

  lemma RemoverKeeps(core: Core, at: Section, next: PollerId, ok: bool, fd: Fd, ssl: bool)
    requires CoreInv(core, at) && Possible(core, at, ok, fd) && RemoverInside(at)
    ensures CoreInv(Effect(core, at, ok, fd, ssl), After(core, at, next, ok, fd))
  {
    if Unlisting(at) {
      UnlistingKeeps(core, at, next, ok, fd, ssl);
    } else if at.LeaveRemove? {
      LeaveRemoveMoves(core, at.p);
    } else if PastClose(at) {
      ErasingKeeps(core, at, next, ok, fd, ssl);
    } else {
      DetachedKeeps(core, at, next, ok, fd, ssl);
    }
  }

  lemma UnlistingKeeps(core: Core, at: Section, next: PollerId, ok: bool, fd: Fd, ssl: bool)
    requires CoreInv(core, at) && Possible(core, at, ok, fd) && Unlisting(at)
    ensures CoreInv(Effect(core, at, ok, fd, ssl), After(core, at, next, ok, fd))
  {
    match at
    case SetClosed(p, c) => SetClosedKeeps(core, p, c);
    case ReadHandler(p, c) => ReadHandlerMoves(core, p, c);
    case WantDelete(p, c, h) => WantDeleteMoves(core, p, c, h);
    case Delete(p, c, h) => DeleteKeeps(core, p, c, h);
  }

  lemma DetachedKeeps(core: Core, at: Section, next: PollerId, ok: bool, fd: Fd, ssl: bool)
    requires CoreInv(core, at) && Possible(core, at, ok, fd) && Detached(at) && !PastClose(at)
    ensures CoreInv(Effect(core, at, ok, fd, ssl), After(core, at, next, ok, fd))
  {
    match at
    case CloseConn(p, c) => CloseConnKeeps(core, p, c, next, ok, fd, ssl);
    case WantSocket(p, c) => WantSocketMoves(core, p, c);
    case CloseFd(p, c) => CloseFdKeeps(core, p, c);
    case NullSsl(p, c) => NullSslKeeps(core, p, c);
  }

  lemma ErasingKeeps(core: Core, at: Section, next: PollerId, ok: bool, fd: Fd, ssl: bool)
    requires CoreInv(core, at) && Possible(core, at, ok, fd) && PastClose(at)
    ensures CoreInv(Effect(core, at, ok, fd, ssl), After(core, at, next, ok, fd))
  {
    match at
    case WantQueueClosed(p, c) => WantQueueClosedMoves(core, p, c);
    case PushClosed(p, c) => PushClosedMoves(core, p, c);
    case Erase(p, c) => EraseKeeps(core, p, c);
  }

  lemma CloseConnKeeps(core: Core, p: PollerId, c: ConnId, next: PollerId, ok: bool, fd: Fd, ssl: bool)
    requires CoreInv(core, CloseConn(p, c)) && Possible(core, CloseConn(p, c), ok, fd)
    ensures CoreInv(Effect(core, CloseConn(p, c), ok, fd, ssl), After(core, CloseConn(p, c), next, ok, fd))
  {
    if core.protocol == Tcp {
      CloseTcpKeeps(core, p, c);
    } else if core.conns[c].ssl {
      CloseTlsMoves(core, p, c);
    } else {
      CloseSkipMoves(core, p, c);
    }
  }

  lemma CloserKeeps(core: Core, at: Section, next: PollerId, ok: bool, fd: Fd, ssl: bool)
    requires CoreInv(core, at) && Possible(core, at, ok, fd) && CloserInside(at)
    ensures CoreInv(Effect(core, at, ok, fd, ssl), After(core, at, next, ok, fd))
  {
    if at == Visit({}) {
      ClearKeeps(core);
    } else if at.Visit? {
      VisitKeeps(core, at.todo, next, ok, fd, ssl);
    } else {
      ClosingOneKeeps(core, at, next, ok, fd, ssl);
    }
  }

  lemma ClosingOneKeeps(core: Core, at: Section, next: PollerId, ok: bool, fd: Fd, ssl: bool)
    requires CoreInv(core, at) && Possible(core, at, ok, fd) && (ClosingOne(at) || at == LeaveAll)
    ensures CoreInv(Effect(core, at, ok, fd, ssl), After(core, at, next, ok, fd))
  {
    match at
    case WantSocketAll(c, todo) => WantSocketAllMoves(core, c, todo);
    case CloseFdAll(c, todo) => CloseFdAllKeeps(core, c, todo);
    case NullSslAll(c, todo) => NullSslAllKeeps(core, c, todo);
    case LeaveAll => LeaveAllMoves(core);
  }

  lemma VisitKeeps(core: Core, todo: set<Fd>, next: PollerId, ok: bool, fd: Fd, ssl: bool)
    requires CoreInv(core, Visit(todo)) && Possible(core, Visit(todo), ok, fd) && todo != {}
    ensures CoreInv(Effect(core, Visit(todo), ok, fd, ssl), After(core, Visit(todo), next, ok, fd))
  {
    if core.protocol == Tcp {
      VisitTcpKeeps(core, todo, fd);
    } else if core.conns[core.store[fd]].ssl {
      VisitTlsMoves(core, todo, fd);
    } else {
      VisitSkipMoves(core, todo, fd);
    }
  }

  /** Every move inside the section keeps the invariant. */
  lemma InsideKeeps(core: Core, at: Section, next: PollerId, ok: bool, fd: Fd, ssl: bool)
    requires CoreInv(core, at) && Possible(core, at, ok, fd) && (at.Advance? ==> next < |core.interest|)
    ensures CoreInv(Effect(core, at, ok, fd, ssl), After(core, at, next, ok, fd))
  {
    if AcceptorInside(at) {
      AcceptorKeeps(core, at, next, ok, fd, ssl);
    } else if RemoverInside(at) {
      RemoverKeeps(core, at, next, ok, fd, ssl);
    } else {
      CloserKeeps(core, at, next, ok, fd, ssl);
    }
  }

  // ---------------------------------------------------------------- entering, and marking from outside

  lemma EnterAccept(core: Core)
    requires CoreInv(core, Nobody)
    ensures CoreInv(core, Accept)
  {
    assert StateInv(core, Accept) by { EnterAcceptState(core); }
  }

  lemma EnterAcceptState(core: Core)
    requires StateInv(core, Nobody)
    ensures StateInv(core, Accept)
  {
  }

  lemma EnterRemove(core: Core, p: PollerId, c: ConnId)
    requires CoreInv(core, Nobody) && Listed(core, p, c) && core.conns[c].kind != Closed
    ensures CoreInv(core, SetClosed(p, c))
  {
    assert StateInv(core, SetClosed(p, c)) by { EnterRemoveState(core, p, c); }
  }

  lemma EnterRemoveState(core: Core, p: PollerId, c: ConnId)
    requires StateInv(core, Nobody) && Listed(core, p, c) && core.conns[c].kind != Closed
    ensures StateInv(core, SetClosed(p, c))
  {
  }

  lemma EnterVisit(core: Core)
    requires CoreInv(core, Nobody)
    ensures CoreInv(core, Visit(core.store.Keys))
  {
    assert StateInv(core, Visit(core.store.Keys)) by { EnterVisitState(core); }
  }

  lemma EnterVisitState(core: Core)
    requires StateInv(core, Nobody)
    ensures StateInv(core, Visit(core.store.Keys))
  {
  }

  /** A poller marks a listed connection as carrying data, whatever goes on inside. */
  lemma MarkKeeps(core: Core, at: Section, p: PollerId, c: ConnId)
    requires CoreInv(core, at) && Listed(core, p, c) && core.conns[c].kind != Closed
    ensures CoreInv(SetConn(core, c, core.conns[c].(kind := Data)), at)
  {
    MarkKeepsMaps(core, c);
    MarkKeepsFates(core, at, c);
    MarkKeepsKept(core, at, c);
    MarkKeepsLists(core, at, c);
    MarkKeepsPositions(core, at, p, c);
  }

  lemma MarkKeepsMaps(core: Core, c: ConnId)
    requires MapsInv(core) && CloseInv(core) && HandlerInv(core) && FateInv(core) && c < |core.conns|
    ensures var t := SetConn(core, c, core.conns[c].(kind := Data));
            MapsInv(t) && CloseInv(t) && HandlerInv(t) && FateInv(t)
  {
    var conn := core.conns[c].(kind := Data);
    SetConnFacts(core, c, conn);
    SameCloses(core, SetConn(core, c, conn));
    MarkKeepsFate(core, c);
  }

  lemma MarkKeepsFate(core: Core, c: ConnId)
    requires FateInv(core) && c < |core.conns|
    ensures FateInv(SetConn(core, c, core.conns[c].(kind := Data)))
  {
    SetConnFacts(core, c, core.conns[c].(kind := Data));
  }

  lemma MarkKeepsFates(core: Core, at: Section, c: ConnId)
    requires SslInv(core, at) && StoreTcpInv(core, at) && MapsInv(core) && c < |core.conns|
    ensures var t := SetConn(core, c, core.conns[c].(kind := Data));
            SslInv(t, at) && StoreTcpInv(t, at)
  {
    SetConnFacts(core, c, core.conns[c].(kind := Data));
  }

  lemma MarkKeepsKept(core: Core, at: Section, c: ConnId)
    requires KeptInv(core, at) && c < |core.conns|
    ensures KeptInv(SetConn(core, c, core.conns[c].(kind := Data)), at)
  {
    SetConnFacts(core, c, core.conns[c].(kind := Data));
  }

  lemma MarkKeepsLists(core: Core, at: Section, c: ConnId)
    requires ListInv(core, at) && ClosingInv(core, at) && c < |core.conns|
    ensures var t := SetConn(core, c, core.conns[c].(kind := Data));
            ListInv(t, at) && ClosingInv(t, at)
  {
    SetConnFacts(core, c, core.conns[c].(kind := Data));
  }

  lemma MarkKeepsPositions(core: Core, at: Section, p: PollerId, c: ConnId)
    requires ListInv(core, at) && AddingInv(core, at) && InitInv(core, at) && RemoveInv(core, at)
    requires Listed(core, p, c) && core.conns[c].kind != Closed
    ensures var t := SetConn(core, c, core.conns[c].(kind := Data));
            AddingInv(t, at) && InitInv(t, at) && RemoveInv(t, at)
  {
    SetConnFacts(core, c, core.conns[c].(kind := Data));
  }
}
