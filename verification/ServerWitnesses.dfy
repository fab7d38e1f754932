/** Runs that show what can happen. */
module ServerWitnesses {
  import opened Common
  import opened ServerMachine
  import opened ServerRuns
  import opened RegistryRuns

  /** The first connection is accepted and initialised; under TLS with or without an SSL object. */
  lemma FirstInitialised(protocol: Protocol, ssl: bool, workers: nat) returns (s: State)
    requires protocol == Tcp ==> !ssl
    ensures Reachable(protocol, 1, workers, s) && Alone(s)
    ensures s == Init(protocol, 1, workers).(
      core := Core(protocol, [Conn(0, New, None, ssl, ssl)], map[0 := 0], [map[]], map[], [], {}),
      section := WantSched(0), acceptor := AInside)
  {
    var s0, s1 := FirstAccepted(protocol, ssl, workers);
    s := InitRun(s1, true, true);
    Chain(s0, s1, s);
    Follow(protocol, 1, workers, s0, s);
  }

  lemma FirstAccepted(protocol: Protocol, ssl: bool, workers: nat) returns (s0: State, s: State)
    ensures s0 == Init(protocol, 1, workers) && Reachable(protocol, 1, workers, s0) && Leads(s0, s) && Alone(s)
    ensures s == s0.(
      core := Core(protocol, [Conn(0, New, None, ssl, false)], map[0 := 0], [map[]], map[], [], {}),
      section := InitConn(0), acceptor := AInside)
  {
    Start(protocol, 1, workers);
    s0 := Init(protocol, 1, workers);
    var s1 := AcceptedRun(s0, 0, ssl, true);
    s := MarkedNew(s1);
    Chain(s0, s1, s);
  }

  /** It is in the poller's interest set, and the handler pointer is about to be written. */
  lemma FirstListed(protocol: Protocol, workers: nat) returns (s: State)
    ensures Reachable(protocol, 1, workers, s) && Alone(s)
    ensures s == Init(protocol, 1, workers).(
      core := Core(protocol, [Conn(0, New, None, false, false)], map[0 := 0], [map[0 := 0]], map[], [], {}),
      section := SetHandler(0, 0), acceptor := AInside)
  {
    var s0 := FirstInitialised(protocol, false, workers);
    var s1 := Scheduled(s0);
    s := Move(s0, s1, true, 0, false);
    Follow(protocol, 1, workers, s0, s);
  }

  lemma HangupReported(s: State) returns (t: State)
    requires Alone(s) && s.closer == CIdle && s.pollers == [PWait([])]
    requires |s.core.conns| == 1 && s.core.conns[0].fd == 0 && s.core.interest == [map[0 := 0]]
    ensures Leads(s, t) && t == s.(pollers := [PWantReg(0, [])])
  {
    var u := BatchRun(s, 0, [Entry(0, true)]);
    assert u.pollers == [PServe([Entry(0, true)])];
    t := HangupTaken(u, 0);
    assert [Entry(0, true)][1..] == [];
    Chain(s, u, t);
  }

  /** The race is real: a hang-up can be reported, and its poller wait for the registry mutex,
      before the acceptor has stored the handler pointer. */
  lemma HangupBeforeHandler() returns (s: State)
    ensures Reachable(Tcp, 1, 0, s)
    ensures s.section == SetHandler(0, 0) && |s.core.conns| == |s.pollers| == 1
    ensures s.core.conns[0].handler == None && s.pollers[0] == PWantReg(0, [])
  {
    var s0 := FirstListed(Tcp, 0);
    s := HangupReported(s0);
    Follow(Tcp, 1, 0, s0, s);
  }

  /** The first connection is in the map, and its pool entry is queued. */
  lemma FirstInserted(protocol: Protocol, ssl: bool, workers: nat) returns (s: State)
    requires protocol == Tcp ==> !ssl
    ensures Reachable(protocol, 1, workers, s) && Alone(s)
    ensures s == Init(protocol, 1, workers).(
      core := Core(protocol, [Conn(0, New, Some(0), ssl, ssl)], map[0 := 0], [map[0 := 0]], map[0 := 0], [], {0}),
      queue := [Task(0, New)])
  {
    var s0 := FirstInitialised(protocol, ssl, workers);
    var s1 := AssignRun(s0, true);
    s := Inserted(s1);
    Chain(s0, s1, s);
    Follow(protocol, 1, workers, s0, s);
  }

  /** The TLS handler can leave a connection open for good: m_SSL happened to be null. */
  lemma TlsLeak() returns (s: State)
    ensures Reachable(Tls, 1, 0, s) && s.closer == CDone
    ensures 0 in s.core.inserted && s.core.open == map[0 := 0] && s.core.closes == []
  {
    var s0 := FirstInserted(Tls, false, 0);
    var s1 := EnterCloser(s0);
    var s2 := Visited(s1, 0);
    Chain(s0, s1, s2);
    assert s2.section == Visit({});
    s := Cleared(s2);
    Chain(s0, s2, s);
    Follow(Tls, 1, 0, s0, s);
  }

  /** The poller has a data entry in hand while a worker has read the kind once. */
  lemma FirstReadOnce() returns (s: State)
    ensures Reachable(Tcp, 1, 1, s)
    ensures s == Init(Tcp, 1, 1).(
      core := Core(Tcp, [Conn(0, New, Some(0), false, false)], map[0 := 0], [map[0 := 0]], map[0 := 0], [], {0}),
      started := [Task(0, New)], pollers := [PServe([Entry(0, false)])], workers := [WTest2(0, New)])
  {
    var s0 := FirstInserted(Tcp, false, 1);
    var s1 := BatchRun(s0, 0, [Entry(0, false)]);
    Then(s0, s1, WStep(0, false, 0));
    var s2 := Next(s1, WStep(0, false, 0));
    Then(s0, s2, WStep(0, false, 0));
    s := WorkerTakes(s0, Next(s2, WStep(0, false, 0)));
    Follow(Tcp, 1, 1, s0, s);
  }

  lemma WorkerTakes(s0: State, r: State) returns (s: State)
    requires Leads(s0, r) && r.workers == [WTake] && r.queue == [Task(0, New)] && r.started == []
    requires |r.core.conns| == 1 && r.core.conns[0].kind == New
    ensures Leads(s0, s) && s == r.(queue := [], started := [Task(0, New)], workers := [WTest2(0, New)])
  {
    Then(s0, r, WStep(0, false, 0));
    var s1 := Next(r, WStep(0, false, 0));
    Then(s0, s1, WStep(0, false, 0));
    s := Next(s1, WStep(0, false, 0));
  }

  /** A pool entry for a new connection can deliver no callback at all. */
  lemma NewTaskWithoutCallback() returns (s: State)
    ensures Reachable(Tcp, 1, 1, s)
    ensures |s.started| == 1 && s.started[0] == Task(0, New) && 0 in s.outcomes && s.outcomes[0].call == NoCall
  {
    var s0 := FirstReadOnce();
    Extend(Tcp, 1, 1, s0, PStep(0, 0, false, false));
    var s1 := Next(s0, PStep(0, 0, false, false));
    Extend(Tcp, 1, 1, s1, WStep(0, false, 0));
    var s2 := Next(s1, WStep(0, false, 0));
    Extend(Tcp, 1, 1, s2, WStep(0, false, 0));
    s := Next(s2, WStep(0, false, 0));
  }

  // ---------------------------------------------------------------- a call under way at a close

  /** The only worker is in the callback for the first connection. */
  lemma FirstCalled(protocol: Protocol, ssl: bool) returns (s: State)
    requires protocol == Tcp ==> !ssl
    ensures Reachable(protocol, 1, 1, s) && Alone(s)
    ensures s == Init(protocol, 1, 1).(
      core := Core(protocol, [Conn(0, New, Some(0), ssl, ssl)], map[0 := 0], [map[0 := 0]], map[0 := 0], [], {0}),
      started := [Task(0, New)], workers := [WCallback(0)],
      outcomes := map[0 := Outcome(New, New, New, NewConnectionEvent)])
  {
    var s0 := FirstInserted(protocol, ssl, 1);
    Stay(s0);
    Then(s0, s0, WStep(0, false, 0));
    var s1 := Next(s0, WStep(0, false, 0));
    Then(s0, s1, WStep(0, false, 0));
    var s2 := WorkerTakes(s0, Next(s1, WStep(0, false, 0)));
    Then(s0, s2, WStep(0, false, 0));
    s := Next(s2, WStep(0, false, 0));
    Follow(protocol, 1, 1, s0, s);
  }

  /** Its poller removes the first connection after a hang-up. */
  lemma FirstRemoved(s: State) returns (t: State)
    requires Alone(s) && s.closer == CIdle && s.section == Nobody && s.pollers == [PWait([])]
    requires |s.core.conns| == 1 && s.core.conns[0].fd == 0 && s.core.conns[0].handler == Some(0)
    requires s.core.interest == [map[0 := 0]]
    ensures Leads(s, t) && Alone(t)
    ensures t == s.(core := Removed(s.core, 0, 0), queue := s.queue + [Task(0, Closed)], pollers := [PServe([])])
  {
    var u := BatchRun(s, 0, [Entry(0, true)]);
    assert u.pollers == [PServe([Entry(0, true)])];
    var v := EnterRemover(u, 0);
    assert [Entry(0, true)][1..] == [];
    Chain(s, u, v);
    t := ClosedAndErased(v);
    Chain(s, v, t);
  }

  lemma ClosedAndErased(s: State) returns (t: State)
    requires Alone(s) && s.section == SetClosed(0, 0) && s.pollers == [PInside([])]
    requires |s.core.conns| == 1 && s.core.conns[0].handler == Some(0) && |s.core.interest| == 1
    ensures Leads(s, t) && Alone(t)
    ensures t == s.(core := Removed(s.core, 0, 0), queue := s.queue + [Task(0, Closed)], section := Nobody,
                    pollers := [PServe([])])
  {
    var u := Unlisted(s, 0);
    var v := ShutInside(u);
    Chain(s, u, v);
    t := Erased(v);
    Chain(s, v, t);
  }

  lemma UnderTcpInside() returns (s: State)
    ensures Reachable(Tcp, 1, 1, s) && Alone(s)
    ensures s == Init(Tcp, 1, 1).(
      core := Core(Tcp, [Conn(0, New, Some(0), false, false)], map[0 := 0], [map[0 := 0]], map[0 := 0], [], {0}),
      started := [Task(0, New)], workers := [WInSocket(0, 0)],
      outcomes := map[0 := Outcome(New, New, New, NewConnectionEvent)])
  {
    var s0 := FirstCalled(Tcp, false);
    Extend(Tcp, 1, 1, s0, WStep(0, true, 0));
    var s1 := Next(s0, WStep(0, true, 0));
    Extend(Tcp, 1, 1, s1, WStep(0, true, 0));
    s := Next(s1, WStep(0, true, 0));
  }

  /** Under TCP a callback can be inside a connection's socket mutex while the connection is removed
      and its number handed out again: what it then sends and receives is another connection's. */
  lemma NumberReusedInside() returns (s: State)
    ensures Reachable(Tcp, 1, 1, s) && s.workers == [WInSocket(0, 0)] && s.started == [Task(0, New)]
    ensures |s.core.conns| == 2 && 0 in s.core.inserted
    ensures s.core.conns[0].fd in s.core.open && s.core.open[s.core.conns[0].fd] == 1
  {
    var s0 := UnderTcpInside();
    var s1 := FirstRemoved(s0);
    s := AcceptedRun(s1, 0, false, true);
    Chain(s0, s1, s);
    Follow(Tcp, 1, 1, s0, s);
  }

  lemma UnderTlsTested() returns (before: State, s: State)
    ensures Reachable(Tls, 1, 1, before) && before.workers == [WCallback(0)]
    ensures |before.core.conns| == 1 && before.core.conns[0].ssl
    ensures Enabled(before, WStep(0, true, 0)) && s == Next(before, WStep(0, true, 0))
    ensures Reachable(Tls, 1, 1, s) && Alone(s)
    ensures s == Init(Tls, 1, 1).(
      core := Core(Tls, [Conn(0, New, Some(0), true, true)], map[0 := 0], [map[0 := 0]], map[0 := 0], [], {0}),
      started := [Task(0, New)], workers := [WWantSocket(0, 0)],
      outcomes := map[0 := Outcome(New, New, New, NewConnectionEvent)])
  {
    before := FirstCalled(Tls, true);
    Extend(Tls, 1, 1, before, WStep(0, true, 0));
    s := Next(before, WStep(0, true, 0));
  }

  /** Under TLS a callback can find m_SSL non-null, ask for the mutex, and find it null inside: in
      `before` the callback is about to test it. */
  lemma NullSessionInside() returns (before: State, s: State)
    ensures Reachable(Tls, 1, 1, before) && before.workers == [WCallback(0)]
    ensures |before.core.conns| == 1 && before.core.conns[0].ssl
    ensures Enabled(before, WStep(0, true, 0)) && Next(before, WStep(0, true, 0)).workers == [WWantSocket(0, 0)]
    ensures Leads(Next(before, WStep(0, true, 0)), s)
    ensures Reachable(Tls, 1, 1, s) && s.workers == [WInSocket(0, 0)] && s.started == [Task(0, New)]
    ensures |s.core.conns| == 1 && 0 in s.core.inserted && !s.core.conns[0].ssl
  {
    var s0;
    before, s0 := UnderTlsTested();
    var s1 := FirstRemoved(s0);
    Then(s0, s1, WStep(0, true, 0));
    s := Next(s1, WStep(0, true, 0));
    Follow(Tls, 1, 1, s0, s);
  }
}
