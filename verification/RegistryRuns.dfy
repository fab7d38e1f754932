/** The way of one thread through the registry mutex, and of a poller through a batch, while the
    other threads rest: runs of ServerMachine. */
module RegistryRuns {
  import opened Common
  import opened ServerMachine
  import opened ServerCore
  import opened ServerRuns

  // ---------------------------------------------------------------- the acceptor

  lemma EnterAcceptor(s: State) returns (t: State)
    requires Alone(s) && s.section == Nobody && s.acceptor == AIdle && s.closer == CIdle
    ensures Leads(s, t) && Alone(t)
    ensures t == s.(acceptor := AInside, section := Accept)
  {
    Stay(s);
    Then(s, s, AStep);
    t := Next(s, AStep);
    Then(s, t, AStep);
    t := Next(t, AStep);
  }

  lemma AcceptFails(s: State) returns (t: State)
    requires Alone(s) && s.section == Accept
    ensures Leads(s, t) && Alone(t)
    ensures t == s.(acceptor := AIdle, section := Nobody)
  {
    Stay(s);
    t := Move(s, s, false, 0, false);
    t := Move(s, t, false, 0, false);
  }

  lemma Accepted(s: State, fd: Fd, ssl: bool) returns (t: State)
    requires Alone(s) && s.section == Accept && fd !in s.core.open
    ensures Leads(s, t) && Alone(t)
    ensures t == s.(core := AddConn(s.core, fd, ssl), section := Convert(|s.core.conns|))
  {
    Stay(s);
    t := Move(s, s, true, fd, ssl);
  }

  lemma ConvertFails(s: State) returns (t: State)
    requires Alone(s) && s.section.Convert? && s.section.c < |s.core.conns|
    ensures Leads(s, t) && Alone(t)
    ensures t == s.(acceptor := AIdle, section := Nobody)
  {
    Stay(s);
    t := Move(s, s, false, 0, false);
    t := Move(s, t, false, 0, false);
  }

  /** accept fails: the machine is back where it was. */
  lemma RefusedRun(s: State)
    requires Alone(s) && s.section == Nobody && s.acceptor == AIdle && s.closer == CIdle
    ensures Leads(s, s)
  {
    var t := EnterAcceptor(s);
    var u := AcceptFails(t);
    Chain(s, t, u);
  }

  lemma AcceptedRun(s: State, fd: Fd, ssl: bool, converts: bool) returns (t: State)
    requires Alone(s) && s.section == Nobody && s.acceptor == AIdle && s.closer == CIdle && fd !in s.core.open
    ensures Leads(s, t) && Alone(t)
    ensures t == s.(core := AddConn(s.core, fd, ssl),
                    acceptor := if converts then AInside else AIdle,
                    section := if converts then Convert(|s.core.conns|) else Nobody)
  {
    var u := EnterAcceptor(s);
    t := Accepted(u, fd, ssl);
    Chain(s, u, t);
    if !converts {
      u := ConvertFails(t);
      Chain(s, t, u);
      t := u;
    }
  }

  lemma MarkedNew(s: State) returns (t: State)
    requires Alone(s) && s.section.Convert? && s.section.c < |s.core.conns|
    ensures Leads(s, t) && Alone(t)
    ensures var c := s.section.c;
            t == s.(core := SetConn(s.core, c, s.core.conns[c].(kind := New)), section := InitConn(c))
  {
    Stay(s);
    t := Move(s, s, true, 0, false);
    t := Move(s, t, true, 0, false);
  }

  lemma InitSkipped(s: State) returns (t: State)
    requires Alone(s) && s.section.InitConn? && s.section.c < |s.core.conns|
    requires s.core.protocol == Tcp || !s.core.conns[s.section.c].ssl
    ensures Leads(s, t) && Alone(t)
    ensures var c := s.section.c; var conn := s.core.conns[c];
            t == s.(core := SetConn(s.core, c, conn.(hadSsl := conn.ssl)), section := WantSched(c))
  {
    Stay(s);
    t := Move(s, s, true, 0, false);
  }

  /** Under the certificate mutex an SSL object is made, or not. */
  lemma Certified(s: State, ok: bool) returns (t: State)
    requires Alone(s) && s.section.InitConn? && s.section.c < |s.core.conns|
    requires s.core.protocol == Tls && s.core.conns[s.section.c].ssl
    ensures Leads(s, t) && Alone(t)
    ensures var c := s.section.c; var conn := s.core.conns[c];
            t == s.(core := SetConn(s.core, c, conn.(hadSsl := true, ssl := ok)),
                    section := if ok then Handshake(c) else FailClose(c))
  {
    Stay(s);
    t := Move(s, s, true, 0, false);
    t := Move(s, t, true, 0, false);
    t := Move(s, t, ok, 0, false);
  }

  lemma Shaken(s: State, ok: bool) returns (t: State)
    requires Alone(s) && s.section.Handshake? && s.section.c < |s.core.conns|
    ensures Leads(s, t) && Alone(t)
    ensures t == s.(section := if ok then WantSched(s.section.c) else FailClose(s.section.c))
  {
    Stay(s);
    t := Move(s, s, ok, 0, false);
  }

  lemma InitFailed(s: State) returns (t: State)
    requires Alone(s) && s.section.FailClose? && s.section.c < |s.core.conns|
    ensures Leads(s, t) && Alone(t)
    ensures var c := s.section.c;
            t == s.(core := SetConn(CloseOf(s.core, c), c, s.core.conns[c].(ssl := false)), section := WantSched(c))
  {
    Stay(s);
    t := Move(s, s, true, 0, false);
    t := Move(s, t, true, 0, false);
  }

  /** initConnection on a core: nothing under TCP or without an SSL object; otherwise the object is
      replaced by a new one, or, when that or the handshake fails, the descriptor is closed. */
  function Initialised(core: Core, c: ConnId, certifies: bool, shakes: bool): (t: Core)
    requires c < |core.conns|
  {
    var conn := core.conns[c];
    if core.protocol == Tcp || !conn.ssl then SetConn(core, c, conn.(hadSsl := conn.ssl))
    else if certifies && shakes then SetConn(core, c, conn.(hadSsl := true))
    else SetConn(CloseOf(core, c), c, conn.(hadSsl := true, ssl := false))
  }

  lemma InitRun(s: State, certifies: bool, shakes: bool) returns (t: State)
    requires Alone(s) && s.section.InitConn? && s.section.c < |s.core.conns|
    ensures Leads(s, t) && Alone(t)
    ensures t == s.(core := Initialised(s.core, s.section.c, certifies, shakes), section := WantSched(s.section.c))
  {
    if s.core.protocol == Tcp || !s.core.conns[s.section.c].ssl {
      t := InitSkipped(s);
      return;
    }
    t := Certified(s, certifies);
    if certifies {
      var u := Shaken(t, shakes);
      Chain(s, t, u);
      t := u;
    }
    if !(certifies && shakes) {
      var u := InitFailed(t);
      Chain(s, t, u);
      t := u;
    }
  }

  /** The poller's turn comes round, whether or not epoll takes the descriptor. */
  lemma Scheduled(s: State) returns (t: State)
    requires Alone(s) && s.section.WantSched? && s.section.c < |s.core.conns| && |s.core.interest| > 0
    ensures Leads(s, t) && Alone(t)
    ensures t == s.(index := NextIndex(s), section := EpollAdd(s.section.c, NextIndex(s)))
  {
    t := TurnTaken(s);
    t := Move(s, t, true, 0, false);
  }

  lemma TurnTaken(s: State) returns (t: State)
    requires Alone(s) && s.section.WantSched? && s.section.c < |s.core.conns| && |s.core.interest| > 0
    ensures Leads(s, t) && Alone(t)
    ensures t == s.(index := NextIndex(s), section := WantPoll(s.section.c, NextIndex(s)))
  {
    Stay(s);
    t := Move(s, s, true, 0, false);
    t := Move(s, t, true, 0, false);
  }

  lemma NotListed(s: State) returns (t: State)
    requires Alone(s) && s.section.EpollAdd? && s.section.c < |s.core.conns| && s.section.p < |s.core.interest|
    ensures Leads(s, t) && Alone(t)
    ensures t == s.(section := Insert(s.section.c))
  {
    Stay(s);
    t := Move(s, s, false, 0, false);
    t := Move(s, t, true, 0, false);
  }

  lemma ListedIn(s: State) returns (t: State)
    requires Alone(s) && s.section.EpollAdd? && s.section.c < |s.core.conns| && s.section.p < |s.core.interest|
    requires var fd := s.core.conns[s.section.c].fd; fd in s.core.open && fd !in s.core.interest[s.section.p]
    ensures Leads(s, t) && Alone(t)
    ensures var c, p := s.section.c, s.section.p;
            t == s.(core := SetConn(ListConn(s.core, c, p), c, s.core.conns[c].(handler := Some(p))), section := Insert(c))
  {
    Stay(s);
    t := Move(s, s, true, 0, false);
    t := Move(s, t, true, 0, false);
    t := Move(s, t, true, 0, false);
  }

  /** The scheduler's addSocket on a core: poller `p` may take the connection on. */
  function Assigned(core: Core, c: ConnId, p: PollerId, takes: bool): (t: Core)
    requires c < |core.conns| && p < |core.interest|
  {
    if takes then SetConn(ListConn(core, c, p), c, core.conns[c].(handler := Some(p))) else core
  }

  lemma AssignRun(s: State, takes: bool) returns (t: State)
    requires Alone(s) && s.section.WantSched? && s.section.c < |s.core.conns| && |s.core.interest| > 0
    requires var fd := s.core.conns[s.section.c].fd;
             takes ==> fd in s.core.open && fd !in s.core.interest[NextIndex(s)]
    ensures Leads(s, t) && Alone(t)
    ensures t == s.(index := NextIndex(s), core := Assigned(s.core, s.section.c, NextIndex(s), takes),
                    section := Insert(s.section.c))
  {
    t := Scheduled(s);
    var u;
    if takes {
      u := ListedIn(t);
    } else {
      u := NotListed(t);
    }
    Chain(s, t, u);
    t := u;
  }

  lemma NewPushed(s: State) returns (t: State)
    requires Alone(s) && s.section.PushNew?
    requires s.section.c < |s.core.conns|
    ensures Leads(s, t) && Alone(t)
    ensures t == s.(queue := s.queue + [Task(s.section.c, New)], section := Nobody, acceptor := AIdle)
  {
    Stay(s);
    t := Move(s, s, true, 0, false);
    t := Move(s, t, true, 0, false);
  }

  lemma Inserted(s: State) returns (t: State)
    requires Alone(s) && s.section.Insert? && s.section.c < |s.core.conns|
    ensures Leads(s, t) && Alone(t)
    ensures var c := s.section.c;
            t == s.(core := StoreConn(s.core, c), queue := s.queue + [Task(c, New)], section := Nobody, acceptor := AIdle)
  {
    var c := s.section.c;
    Stay(s);
    t := Move(s, s, true, 0, false);
    assert t == s.(core := StoreConn(s.core, c), section := WantQueue(c));
    t := Move(s, t, true, 0, false);
    assert t == s.(core := StoreConn(s.core, c), section := PushNew(c));
    var u := NewPushed(t);
    Chain(s, t, u);
    t := u;
  }

  /** A newly accepted connection on a core: from the kind to the map. */
  function Admitted(core: Core, c: ConnId, certifies: bool, shakes: bool, registers: bool, p: PollerId): (t: Core)
    requires c < |core.conns| && p < |core.interest|
  {
    var marked := Initialised(SetConn(core, c, core.conns[c].(kind := New)), c, certifies, shakes);
    StoreConn(Assigned(marked, c, p, registers && core.conns[c].fd in marked.open), c)
  }

  lemma AdmittedParts(core: Core, c: ConnId, certifies: bool, shakes: bool, registers: bool, p: PollerId, marked: Core)
    requires c < |core.conns| && p < |core.interest|
    requires marked == Initialised(SetConn(core, c, core.conns[c].(kind := New)), c, certifies, shakes)
    ensures |marked.conns| == |core.conns| && |marked.interest| == |core.interest|
    ensures Admitted(core, c, certifies, shakes, registers, p)
              == StoreConn(Assigned(marked, c, p, registers && marked.conns[c].fd in marked.open), c)
  {
  }

  predicate Shuts(core: Core, ssl: bool, certifies: bool, shakes: bool) {
    core.protocol == Tls && ssl && !(certifies && shakes)
  }

  lemma AdmittedFacts(core: Core, fd: Fd, ssl: bool, certifies: bool, shakes: bool, registers: bool, p: PollerId)
    requires fd !in core.open && p < |core.interest|
    requires forall j :: 0 <= j < |core.interest| ==> fd !in core.interest[j]
    ensures var c := |core.conns|;
            var t := Admitted(AddConn(core, fd, ssl), c, certifies, shakes, registers, p);
            var shut := Shuts(core, ssl, certifies, shakes);
            var taken := registers && !shut;
            && t.conns == core.conns + [Conn(fd, New, if taken then Some(p) else None, ssl && !shut, ssl)]
            && t.open == (if shut then core.open else core.open[fd := c])
            && t.store == core.store[fd := c] && t.inserted == core.inserted + {c}
            && |t.interest| == |core.interest|
            && (forall j :: 0 <= j < |core.interest| ==>
                  t.interest[j] == if taken && j == p then core.interest[j][fd := c] else core.interest[j])
            && t.closes == core.closes + if shut then [CloseCall(c, Some(c))] else []
  {
  }

  // ---------------------------------------------------------------- closeConnection

  /** What closeConnection does, by handler: TCP closes, TLS closes if there is an SSL object. */
  function Shut(core: Core, c: ConnId): (t: Core)
    requires c < |core.conns|
  {
    if core.protocol == Tcp then CloseOf(core, c)
    else if core.conns[c].ssl then SetConn(CloseOf(core, c), c, core.conns[c].(ssl := false))
    else core
  }

  // ---------------------------------------------------------------- a poller

  /** The batch is epoll_wait's: each of its connections is listed here, and once. */
  ghost predicate Reportable(core: Core, p: nat, events: seq<Entry>) {
    && p < |core.interest|
    && (forall i :: 0 <= i < |events| ==>
          events[i].c < |core.conns| && core.conns[events[i].c].fd in core.interest[p]
          && core.interest[p][core.conns[events[i].c].fd] == events[i].c)
    && (forall i, j :: 0 <= i < j < |events| ==> events[i].c != events[j].c)
  }

  lemma {:induction false} Collected(s: State, p: nat, events: seq<Entry>) returns (t: State)
    requires Alone(s) && s.closer == CIdle && Reportable(s.core, p, events)
    requires p < |s.pollers| && s.pollers[p] == PWait([])
    ensures Leads(s, t) && Alone(t)
    ensures t == s.(pollers := s.pollers[p := PWait(events)])
    decreases |events|
  {
    Stay(s);
    t := s;
    if events == [] {
    } else {
      var last := events[|events| - 1];
      t := Collected(s, p, events[..|events| - 1]);
      var fd := s.core.conns[last.c].fd;
      assert !InBatch(events[..|events| - 1], last.c);
      Then(s, t, PStep(p, fd, false, last.hangup));
      t := Next(t, PStep(p, fd, false, last.hangup));
      assert events == events[..|events| - 1] + [last];
    }
  }

  lemma Delivered(s: State, p: nat) returns (t: State)
    requires Alone(s) && p < |s.pollers| && p < |s.core.interest| && s.pollers[p].PWait? && s.pollers[p].batch != []
    ensures Leads(s, t) && Alone(t)
    ensures t == s.(pollers := s.pollers[p := PServe(s.pollers[p].batch)])
  {
    Stay(s);
    Then(s, s, PStep(p, 0, true, false));
    t := Next(s, PStep(p, 0, true, false));
  }

  lemma BatchRun(s: State, p: nat, events: seq<Entry>) returns (t: State)
    requires Alone(s) && s.closer == CIdle && Reportable(s.core, p, events) && events != []
    requires p < |s.pollers| && s.pollers[p] == PWait([])
    ensures Leads(s, t) && Alone(t)
    ensures t == s.(pollers := s.pollers[p := PServe(events)])
  {
    var u := Collected(s, p, events);
    t := Delivered(u, p);
    Chain(s, u, t);
  }

  lemma Rested(s: State, p: nat) returns (t: State)
    requires Alone(s) && p < |s.pollers| && p < |s.core.interest| && s.pollers[p] == PServe([])
    ensures Leads(s, t) && Alone(t)
    ensures t == s.(pollers := s.pollers[p := PWait([])])
  {
    Stay(s);
    Then(s, s, PStep(p, 0, false, false));
    t := Next(s, PStep(p, 0, false, false));
  }

  /** A data entry: kind, then task. */
  lemma DataServed(s: State, p: nat) returns (t: State)
    requires Alone(s) && p < |s.pollers| && p < |s.core.interest| && s.pollers[p].PServe? && s.section == Nobody
    requires s.pollers[p].batch != [] && !s.pollers[p].batch[0].hangup && s.pollers[p].batch[0].c < |s.core.conns|
    ensures Leads(s, t) && Alone(t)
    ensures var c := s.pollers[p].batch[0].c;
            t == s.(core := SetConn(s.core, c, s.core.conns[c].(kind := Data)), queue := s.queue + [Task(c, Data)],
                    pollers := s.pollers[p := PServe(s.pollers[p].batch[1..])])
  {
    Stay(s);
    Then(s, s, PStep(p, 0, false, false));
    t := Next(s, PStep(p, 0, false, false));
    Then(s, t, PStep(p, 0, false, false));
    t := Next(t, PStep(p, 0, false, false));
    Then(s, t, PStep(p, 0, false, false));
    t := Next(t, PStep(p, 0, false, false));
  }

  /** A hang-up entry sends its poller to the registry mutex, whoever is inside. */
  lemma HangupTaken(s: State, p: nat) returns (t: State)
    requires Alone(s) && p < |s.pollers| && p < |s.core.interest| && s.pollers[p].PServe?
    requires s.pollers[p].batch != [] && s.pollers[p].batch[0].hangup && s.pollers[p].batch[0].c < |s.core.conns|
    ensures Leads(s, t) && Alone(t)
    ensures t == s.(pollers := s.pollers[p := PWantReg(s.pollers[p].batch[0].c, s.pollers[p].batch[1..])])
  {
    Stay(s);
    Then(s, s, PStep(p, 0, false, false));
    t := Next(s, PStep(p, 0, false, false));
  }

  lemma EnterRemover(s: State, p: nat) returns (t: State)
    requires Alone(s) && p < |s.pollers| && p < |s.core.interest| && s.pollers[p].PServe? && s.section == Nobody
    requires s.pollers[p].batch != [] && s.pollers[p].batch[0].hangup && s.pollers[p].batch[0].c < |s.core.conns|
    ensures Leads(s, t) && Alone(t)
    ensures t == s.(section := SetClosed(p, s.pollers[p].batch[0].c),
                    pollers := s.pollers[p := PInside(s.pollers[p].batch[1..])])
  {
    var u := HangupTaken(s, p);
    Then(s, u, PStep(p, 0, false, false));
    t := Next(u, PStep(p, 0, false, false));
  }

  lemma DeleteOne(s: State) returns (t: State)
    requires Alone(s) && s.section.Delete? && s.section.c < |s.core.conns| && s.section.h < |s.core.interest|
    ensures Leads(s, t) && Alone(t)
    ensures t == s.(core := Unlist(s.core, s.section.c, s.section.h), section := CloseConn(s.section.p, s.section.c))
  {
    Stay(s);
    t := Move(s, s, true, 0, false);
  }

  lemma Deleted(s: State, h: nat) returns (t: State)
    requires Alone(s) && s.section.ReadHandler? && s.section.c < |s.core.conns|
    requires s.core.conns[s.section.c].handler == Some(h) && h < |s.core.interest|
    ensures Leads(s, t) && Alone(t)
    ensures t == s.(core := Unlist(s.core, s.section.c, h), section := CloseConn(s.section.p, s.section.c))
  {
    var c, p := s.section.c, s.section.p;
    Stay(s);
    t := Move(s, s, true, 0, false);
    t := Move(s, t, true, 0, false);
    assert t == s.(section := Delete(p, c, h));
    var u := DeleteOne(t);
    Chain(s, t, u);
    t := u;
  }

  /** Kind, handler pointer, epoll_ctl DEL. */
  lemma Unlisted(s: State, h: nat) returns (t: State)
    requires Alone(s) && s.section.SetClosed? && s.section.c < |s.core.conns|
    requires s.core.conns[s.section.c].handler == Some(h) && h < |s.core.interest|
    ensures Leads(s, t) && Alone(t)
    ensures var c := s.section.c;
            t == s.(core := Unlist(SetConn(s.core, c, s.core.conns[c].(kind := Closed)), c, h),
                    section := CloseConn(s.section.p, c))
  {
    var c, p := s.section.c, s.section.p;
    Stay(s);
    t := Move(s, s, true, 0, false);
    assert t == s.(core := SetConn(s.core, c, s.core.conns[c].(kind := Closed)), section := ReadHandler(p, c));
    var u := Deleted(t, h);
    Chain(s, t, u);
    t := u;
  }

  lemma TlsClosedNulled(s: State) returns (t: State)
    requires Alone(s) && s.section.NullSsl? && s.section.c < |s.core.conns|
    ensures Leads(s, t) && Alone(t)
    ensures var c := s.section.c;
            t == s.(core := SetConn(s.core, c, s.core.conns[c].(ssl := false)), section := WantQueueClosed(s.section.p, c))
  {
    Stay(s);
    t := Move(s, s, true, 0, false);
  }

  lemma TlsClosed(s: State) returns (t: State)
    requires Alone(s) && s.section.CloseFd? && s.section.c < |s.core.conns|
    ensures Leads(s, t) && Alone(t)
    ensures var c := s.section.c;
            t == s.(core := SetConn(CloseOf(s.core, c), c, s.core.conns[c].(ssl := false)), section := WantQueueClosed(s.section.p, c))
  {
    Stay(s);
    var u := Move(s, s, true, 0, false);
    assert u == s.(core := CloseOf(s.core, s.section.c), section := NullSsl(s.section.p, s.section.c));
    t := TlsClosedNulled(u);
    Chain(s, u, t);
  }

  lemma ShutTls(s: State) returns (t: State)
    requires Alone(s) && s.section.CloseConn? && s.section.c < |s.core.conns|
    requires s.core.protocol == Tls && s.core.conns[s.section.c].ssl
    ensures Leads(s, t) && Alone(t)
    ensures t == s.(core := Shut(s.core, s.section.c), section := WantQueueClosed(s.section.p, s.section.c))
  {
    var c, p := s.section.c, s.section.p;
    Stay(s);
    t := Move(s, s, true, 0, false);
    assert t == s.(section := WantSocket(p, c));
    t := Move(s, t, true, 0, false);
    assert t == s.(section := CloseFd(p, c));
    var u := TlsClosed(t);
    Chain(s, t, u);
    t := u;
  }

  lemma ShutInside(s: State) returns (t: State)
    requires Alone(s) && s.section.CloseConn? && s.section.c < |s.core.conns|
    ensures Leads(s, t) && Alone(t)
    ensures t == s.(core := Shut(s.core, s.section.c), section := WantQueueClosed(s.section.p, s.section.c))
  {
    if s.core.protocol == Tls && s.core.conns[s.section.c].ssl {
      t := ShutTls(s);
    } else {
      Stay(s);
      t := Move(s, s, true, 0, false);
    }
  }

  lemma RemovalLeft(s: State) returns (t: State)
    requires Alone(s) && s.section.LeaveRemove? && s.section.p < |s.pollers|
    ensures Leads(s, t) && Alone(t)
    ensures t == s.(section := Nobody, pollers := s.pollers[s.section.p := PServe(s.pollers[s.section.p].batch)])
  {
    Stay(s);
    t := Move(s, s, true, 0, false);
  }

  lemma EraseLeaves(s: State) returns (t: State)
    requires Alone(s) && s.section.Erase? && s.section.c < |s.core.conns| && s.section.p < |s.pollers|
    ensures Leads(s, t) && Alone(t)
    ensures var c, p := s.section.c, s.section.p;
            t == s.(core := EraseConn(s.core, c), section := Nobody,
                    pollers := s.pollers[p := PServe(s.pollers[p].batch)])
  {
    Stay(s);
    var u := Move(s, s, true, 0, false);
    assert u == s.(core := EraseConn(s.core, s.section.c), section := LeaveRemove(s.section.p));
    t := RemovalLeft(u);
    Chain(s, u, t);
  }

  /** The queue mutex, and the close task. */
  lemma ClosedPushed(s: State) returns (t: State)
    requires Alone(s) && s.section.WantQueueClosed? && s.section.c < |s.core.conns|
    ensures Leads(s, t) && Alone(t)
    ensures t == s.(section := Erase(s.section.p, s.section.c), queue := s.queue + [Task(s.section.c, Closed)])
  {
    Stay(s);
    t := Move(s, s, true, 0, false);
    assert t == s.(section := PushClosed(s.section.p, s.section.c));
    t := Move(s, t, true, 0, false);
  }

  lemma Erased(s: State) returns (t: State)
    requires Alone(s) && s.section.WantQueueClosed? && s.section.c < |s.core.conns| && s.section.p < |s.pollers|
    ensures Leads(s, t) && Alone(t)
    ensures var c, p := s.section.c, s.section.p;
            t == s.(core := EraseConn(s.core, c), queue := s.queue + [Task(c, Closed)], section := Nobody,
                    pollers := s.pollers[p := PServe(s.pollers[p].batch)])
  {
    var u := ClosedPushed(s);
    t := EraseLeaves(u);
    Chain(s, u, t);
  }

  /** removeSocket on a core. */
  function Removed(core: Core, c: ConnId, p: PollerId): (t: Core)
    requires c < |core.conns| && p < |core.interest|
  {
    EraseConn(Shut(Unlist(SetConn(core, c, core.conns[c].(kind := Closed)), c, p), c), c)
  }

  lemma RemovedFields(core: Core, c: ConnId, p: PollerId)
    requires c < |core.conns| && p < |core.interest| && Owns(core, c)
    requires Closable(core, c) <==> core.protocol == Tcp || core.conns[c].ssl
    requires forall j :: 0 <= j < |core.interest| && j != p ==> core.conns[c].fd !in core.interest[j]
    ensures var t := Removed(core, c, p);
            var fd := core.conns[c].fd;
            && t.conns == core.conns[c := core.conns[c].(kind := Closed, ssl := core.conns[c].ssl && core.protocol == Tcp)]
            && t.open == (if Closable(core, c) then core.open - {fd} else core.open)
            && t.store == core.store - {fd} && t.inserted == core.inserted
            && |t.interest| == |core.interest|
            && (forall j :: 0 <= j < |core.interest| ==>
                  t.interest[j] == if j == p then core.interest[j] - {fd} else core.interest[j])
            && t.closes == core.closes + if Closable(core, c) then [CloseCall(c, Some(c))] else []
  {
    var u := Unlist(SetConn(core, c, core.conns[c].(kind := Closed)), c, p);
    assert forall j :: 0 <= j < |core.interest| ==> core.conns[c].fd !in u.interest[j];
  }

  /** A listed connection loses its map entry, its place in the interest set and, if its handler
      closes it, its descriptor. */
  lemma RemovedFacts(core: Core, c: ConnId, p: PollerId)
    requires CoreInv(core, Nobody) && p < |core.interest| && Listed(core, p, c) && Stored(core, c)
    ensures var t := Removed(core, c, p);
            var fd := core.conns[c].fd;
            && t.conns == core.conns[c := core.conns[c].(kind := Closed, ssl := core.conns[c].ssl && core.protocol == Tcp)]
            && t.open == (if Closable(core, c) then core.open - {fd} else core.open)
            && t.store == core.store - {fd} && t.inserted == core.inserted
            && |t.interest| == |core.interest|
            && (forall j :: 0 <= j < |core.interest| ==>
                  t.interest[j] == if j == p then core.interest[j] - {fd} else core.interest[j])
            && t.closes == core.closes + if Closable(core, c) then [CloseCall(c, Some(c))] else []
  {
    OnlyListed(core, c, p);
    assert c in core.inserted && FateOk(core, c);
    RemovedFields(core, c, p);
  }

  /** No other poller lists the descriptor. */
  lemma OnlyListed(core: Core, c: ConnId, p: PollerId)
    requires CoreInv(core, Nobody) && Listed(core, p, c)
    ensures Owns(core, c)
    ensures forall j :: 0 <= j < |core.interest| && j != p ==> core.conns[c].fd !in core.interest[j]
  {
    var fd := core.conns[c].fd;
    forall j | 0 <= j < |core.interest| && j != p ensures fd !in core.interest[j] {
      if fd in core.interest[j] {
        assert Listed(core, j, core.interest[j][fd]);
      }
    }
  }

  // ---------------------------------------------------------------- a worker

  /** The kind is read up to three times, while nobody writes it. */
  lemma KindTested(s: State, w: nat, k: nat) returns (t: State)
    requires Alone(s) && w < |s.workers| && s.workers[w] == WTest1(k)
    requires k < |s.started| && s.started[k].c < |s.core.conns|
    ensures Leads(s, t) && Alone(t)
    ensures var kind := s.core.conns[s.started[k].c].kind;
            t == s.(workers := s.workers[w := WCallback(k)],
                    outcomes := s.outcomes[k := Outcome(kind, kind, kind, Dispatch(kind, kind, kind))])
  {
    var kind := s.core.conns[s.started[k].c].kind;
    Stay(s);
    t := TestOnce(s, s, w);
    if kind != Data {
      assert t == s.(workers := s.workers[w := WTest2(k, kind)]);
      t := TestOnce(s, t, w);
      if kind != New {
        assert t == s.(workers := s.workers[w := WTest3(k, kind, kind)]);
        t := TestOnce(s, t, w);
      }
    }
  }

  lemma TestOnce(s0: State, s: State, w: nat) returns (t: State)
    requires Leads(s0, s) && Alone(s) && EnabledW(s, w, false, 0)
    requires s.workers[w].WTest1? || s.workers[w].WTest2? || s.workers[w].WTest3?
    ensures Leads(s0, t) && Alone(t) && t == NextW(s, w, false, 0)
  {
    Then(s0, s, WStep(w, false, 0));
    t := Next(s, WStep(w, false, 0));
  }

  // ---------------------------------------------------------------- closing everything

  lemma EnterCloser(s: State) returns (t: State)
    requires Alone(s) && s.section == Nobody && s.acceptor == AIdle && s.closer == CIdle
    requires forall p :: 0 <= p < |s.pollers| ==> s.pollers[p] == PWait([])
    ensures Leads(s, t) && Alone(t)
    ensures t == s.(closer := CInside, section := Visit(s.core.store.Keys))
  {
    Stay(s);
    Then(s, s, CStep);
    t := Next(s, CStep);
    Then(s, t, CStep);
    t := Next(t, CStep);
  }

  lemma TlsClosedAllNulled(s: State) returns (t: State)
    requires Alone(s) && s.section.NullSslAll? && s.section.c < |s.core.conns|
    ensures Leads(s, t) && Alone(t)
    ensures var c := s.section.c;
            t == s.(core := SetConn(s.core, c, s.core.conns[c].(ssl := false)), section := Visit(s.section.todo))
  {
    Stay(s);
    t := Move(s, s, true, 0, false);
  }

  lemma TlsClosedAll(s: State) returns (t: State)
    requires Alone(s) && s.section.CloseFdAll? && s.section.c < |s.core.conns|
    ensures Leads(s, t) && Alone(t)
    ensures var c := s.section.c;
            t == s.(core := SetConn(CloseOf(s.core, c), c, s.core.conns[c].(ssl := false)), section := Visit(s.section.todo))
  {
    Stay(s);
    var u := Move(s, s, true, 0, false);
    assert u == s.(core := CloseOf(s.core, s.section.c), section := NullSslAll(s.section.c, s.section.todo));
    t := TlsClosedAllNulled(u);
    Chain(s, u, t);
  }

  lemma VisitFound(s: State, fd: Fd) returns (t: State)
    requires Alone(s) && s.section.Visit? && fd in s.section.todo && fd in s.core.store
    requires s.core.store[fd] < |s.core.conns|
    requires s.core.protocol == Tls && s.core.conns[s.core.store[fd]].ssl
    ensures Leads(s, t) && Alone(t)
    ensures t == s.(section := WantSocketAll(s.core.store[fd], s.section.todo - {fd}))
  {
    Stay(s);
    t := Move(s, s, true, fd, false);
  }

  lemma VisitStarted(s: State, fd: Fd) returns (t: State)
    requires Alone(s) && s.section.Visit? && fd in s.section.todo && fd in s.core.store
    requires s.core.store[fd] < |s.core.conns|
    requires s.core.protocol == Tls && s.core.conns[s.core.store[fd]].ssl
    ensures Leads(s, t) && Alone(t)
    ensures t == s.(section := CloseFdAll(s.core.store[fd], s.section.todo - {fd}))
  {
    var u := VisitFound(s, fd);
    t := Move(s, u, true, 0, false);
  }

  lemma VisitedTls(s: State, fd: Fd) returns (t: State)
    requires Alone(s) && s.section.Visit? && fd in s.section.todo && fd in s.core.store
    requires s.core.store[fd] < |s.core.conns|
    requires s.core.protocol == Tls && s.core.conns[s.core.store[fd]].ssl
    ensures Leads(s, t) && Alone(t)
    ensures t == s.(core := Shut(s.core, s.core.store[fd]), section := Visit(s.section.todo - {fd}))
  {
    var u := VisitStarted(s, fd);
    t := TlsClosedAll(u);
    Chain(s, u, t);
  }

  lemma VisitedAtOnce(s: State, fd: Fd) returns (t: State)
    requires Alone(s) && s.section.Visit? && fd in s.section.todo && fd in s.core.store
    requires s.core.store[fd] < |s.core.conns|
    requires s.core.protocol == Tcp || !s.core.conns[s.core.store[fd]].ssl
    ensures Leads(s, t) && Alone(t)
    ensures t == s.(core := Shut(s.core, s.core.store[fd]), section := Visit(s.section.todo - {fd}))
  {
    Stay(s);
    t := Move(s, s, true, fd, false);
  }

  lemma Visited(s: State, fd: Fd) returns (t: State)
    requires Alone(s) && s.section.Visit? && fd in s.section.todo && fd in s.core.store
    requires s.core.store[fd] < |s.core.conns|
    ensures Leads(s, t) && Alone(t)
    ensures t == s.(core := Shut(s.core, s.core.store[fd]), section := Visit(s.section.todo - {fd}))
  {
    if s.core.protocol == Tls && s.core.conns[s.core.store[fd]].ssl {
      t := VisitedTls(s, fd);
    } else {
      t := VisitedAtOnce(s, fd);
    }
  }

  lemma LeftForGood(s: State) returns (t: State)
    requires Alone(s) && s.section == LeaveAll
    ensures Leads(s, t) && Alone(t)
    ensures t == s.(section := Finished, closer := CDone)
  {
    Stay(s);
    t := Move(s, s, true, 0, false);
  }

  lemma Cleared(s: State) returns (t: State)
    requires Alone(s) && s.section == Visit({})
    ensures Leads(s, t) && Alone(t)
    ensures t == s.(core := s.core.(store := map[]), section := Finished, closer := CDone)
  {
    Stay(s);
    t := Move(s, s, true, 0, false);
    assert t == s.(core := s.core.(store := map[]), section := LeaveAll);
    var u := LeftForGood(t);
    Chain(s, t, u);
    t := u;
  }
}
