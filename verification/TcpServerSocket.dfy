/** The server's operations on its own fields.  Each call, made while acceptor and pollers rest and
    no worker holds a mutex it takes, is a run of ServerMachine, so every theorem about runs holds
    of the fields it leaves. */
module TcpServerSocket {
  import opened Common
  import opened ServerMachine
  import opened ServerCore
  import opened ServerInvariant
  import opened ServerInvariantProof
  import opened ServerTheorems
  import opened ServerRuns
  import opened RegistryRuns
  import opened BatchService
  import E = EventScheduler

  /** A descriptor that is open for the acceptor's connection is in no interest set yet. */
  lemma NotYetListed(protocol: Protocol, pollers: nat, workers: nat, s: State, p: PollerId)
    requires Reachable(protocol, pollers, workers, s)
    requires BeforeAdd(s.section) && s.section.c < |s.core.conns| && p < |s.core.interest|
    ensures var fd := s.core.conns[s.section.c].fd;
            fd in s.core.open ==> fd !in s.core.interest[p]
  {
    ReachableInv(protocol, pollers, workers, s);
    var fd := s.core.conns[s.section.c].fd;
    if fd in s.core.open && fd in s.core.interest[p] {
      assert Listed(s.core, p, s.core.interest[p][fd]);
    }
  }

  lemma AssignFresh(protocol: Protocol, pollers: nat, workers: nat, s: State, takes: bool) returns (t: State)
    requires Reachable(protocol, pollers, workers, s) && Alone(s) && |s.core.interest| > 0
    requires s.section.WantSched? && s.section.c < |s.core.conns|
    requires takes ==> s.core.conns[s.section.c].fd in s.core.open
    ensures Leads(s, t) && Alone(t)
    ensures t == s.(index := NextIndex(s), core := Assigned(s.core, s.section.c, NextIndex(s), takes),
                    section := Insert(s.section.c))
  {
    NotYetListed(protocol, pollers, workers, s, NextIndex(s));
    t := AssignRun(s, takes);
  }

  /** A closed descriptor is in no interest set at all. */
  lemma ClosedIsUnlisted(protocol: Protocol, pollers: nat, workers: nat, s: State, fd: Fd)
    requires Reachable(protocol, pollers, workers, s) && fd !in s.core.open
    ensures forall p :: 0 <= p < |s.core.interest| ==> fd !in s.core.interest[p]
  {
    ReachableInv(protocol, pollers, workers, s);
    forall p | 0 <= p < |s.core.interest| && fd in s.core.interest[p] ensures false {
      assert Listed(s.core, p, s.core.interest[p][fd]);
    }
  }

  /** The next entry of a batch is for a connection that is listed here, stored, and not closed. */
  lemma NextEntryLive(protocol: Protocol, pollers: nat, workers: nat, s: State, p: PollerId)
    requires Reachable(protocol, pollers, workers, s) && s.section == Nobody
    requires p < |s.pollers| && s.pollers[p].PServe? && s.pollers[p].batch != []
    ensures CoreInv(s.core, Nobody) && p < |s.core.interest|
    ensures var c := s.pollers[p].batch[0].c;
            Listed(s.core, p, c) && Stored(s.core, c) && s.core.conns[c].handler == Some(p)
  {
    ReachableInv(protocol, pollers, workers, s);
    assert BatchOk(s.core, s.section, p, s.pollers[p]);
  }

  lemma NextEntryListed(protocol: Protocol, pollers: nat, workers: nat, s: State, p: PollerId)
    requires Reachable(protocol, pollers, workers, s) && s.section == Nobody
    requires p < |s.pollers| && s.pollers[p].PServe? && s.pollers[p].batch != []
    ensures var c := s.pollers[p].batch[0].c;
            && p < |s.core.interest| && c < |s.core.conns| && s.core.conns[c].handler == Some(p)
  {
    NextEntryLive(protocol, pollers, workers, s, p);
  }

  lemma UpdateTwice(pollers: seq<PollerPc>, p: nat, a: PollerPc, b: PollerPc)
    requires p < |pollers|
    ensures pollers[p := a][p := b] == pollers[p := b] && pollers[p := a][p] == a
  {
  }

  /** The first `i` of the events that poller `p` collected in state `m` have been served. */
  ghost predicate ServedUpTo(m: State, now: State, p: PollerId, events: seq<Entry>, i: nat) {
    && i <= |events| && p < |m.pollers|
    && now == m.(core := now.core, queue := m.queue + TasksOf(events[..i]), pollers := m.pollers[p := PServe(events[i..])])
    && Served(m.core, now.core, p, events[..i])
  }

  lemma NotBefore(core: Core, p: PollerId, events: seq<Entry>, i: nat)
    requires i < |events| && Reportable(core, p, events)
    ensures !InBatch(events[..i], events[i].c)
  {
  }

  lemma EntryServedMore(protocol: Protocol, pollers: nat, workers: nat, before: Core, now: State,
                        p: PollerId, events: seq<Entry>, i: nat)
    requires Reachable(protocol, pollers, workers, now) && now.section == Nobody
    requires i < |events| && Reportable(before, p, events) && Served(before, now.core, p, events[..i])
    requires p < |now.pollers| && now.pollers[p] == PServe(events[i..])
    ensures p < |now.core.interest| && events[i].c < |now.core.conns|
    ensures Served(before, ServeEntry(now.core, events[i], p), p, events[..i + 1])
  {
    assert events[..i] + [events[i]] == events[..i + 1];
    NotBefore(before, p, events, i);
    assert events[i..][0] == events[i];
    NextEntryLive(protocol, pollers, workers, now, p);
    ServedNext(before, now.core, p, events[..i], events[i]);
  }

  lemma ServedOneMore(protocol: Protocol, pollers: nat, workers: nat, m: State, now: State, next: State,
                      p: PollerId, events: seq<Entry>, i: nat)
    requires Reachable(protocol, pollers, workers, now) && now.section == Nobody
    requires ServedUpTo(m, now, p, events, i) && i < |events| && Reportable(m.core, p, events)
    requires p < |now.core.interest| && events[i].c < |now.core.conns|
    requires next == now.(core := ServeEntry(now.core, events[i], p), queue := now.queue + [TaskOf(events[i])],
                          pollers := now.pollers[p := PServe(events[i + 1..])])
    ensures ServedUpTo(m, next, p, events, i + 1)
  {
    assert Served(m.core, next.core, p, events[..i + 1]) by {
      EntryServedMore(protocol, pollers, workers, m.core, now, p, events, i);
    }
    assert TasksOf(events[..i]) + [TaskOf(events[i])] == TasksOf(events[..i + 1]);
  }

  // ---------------------------------------------------------------- closing everything

  /** `now` is `before` with some connections shut that its map stores under a number not in `todo`. */
  ghost predicate ShutOnly(before: Core, now: Core, todo: set<Fd>) {
    && now.protocol == before.protocol && now.store == before.store && now.inserted == before.inserted
    && |now.conns| == |before.conns|
    && (forall c :: 0 <= c < |now.conns| ==>
          now.conns[c] == before.conns[c].(ssl := now.conns[c].ssl)
          && (!Stored(before, c) || before.conns[c].fd in todo ==> Owns(now, c) == Owns(before, c)))
  }

  lemma ShutNext(before: Core, now: Core, todo: set<Fd>, fd: Fd)
    requires CoreInv(now, Visit(todo)) && ShutOnly(before, now, todo) && fd in todo && fd in now.store
    requires now.store[fd] < |now.conns|
    ensures ShutOnly(before, Shut(now, now.store[fd]), todo - {fd})
  {
    var c := now.store[fd];
    assert now.conns[c].fd == fd && Stored(before, c);
    ShutIsOwn(now, todo, fd);
  }

  /** Only the visited connection loses its descriptor. */
  lemma ShutIsOwn(core: Core, todo: set<Fd>, fd: Fd)
    requires CoreInv(core, Visit(todo)) && fd in todo && fd in core.store && core.store[fd] < |core.conns|
    ensures forall d: ConnId :: d != core.store[fd] ==> Owns(Shut(core, core.store[fd]), d) == Owns(core, d)
  {
    var c := core.store[fd];
    if core.protocol == Tcp || core.conns[c].ssl {
      assert Owns(core, c);
      CloseOfFacts(core, c);
    }
  }

  /** One more map entry visited: `todo` are still map keys, and all else is as it was. */
  lemma VisitNext(protocol: Protocol, pollers: nat, workers: nat, before: Core, now: State, fd: Fd)
    requires Reachable(protocol, pollers, workers, now) && now.section.Visit? && fd in now.section.todo
    requires ShutOnly(before, now.core, now.section.todo)
    ensures fd in now.core.store && now.core.store[fd] < |now.core.conns|
    ensures ShutOnly(before, Shut(now.core, now.core.store[fd]), now.section.todo - {fd})
  {
    ReachableInv(protocol, pollers, workers, now);
    assert fd in now.core.store;
    ShutNext(before, now.core, now.section.todo, fd);
  }

  /** What is left open after close-all: what was not inserted, and what its handler never closes. */
  lemma LeftOpen(protocol: Protocol, pollers: nat, workers: nat, m: State, now: State)
    requires Reachable(protocol, pollers, workers, m) && Reachable(protocol, pollers, workers, now)
    requires now.closer == CDone && m.section == Nobody
    requires ShutOnly(m.core, now.core.(store := m.core.store), {})
    ensures |now.core.conns| == |m.core.conns|
    ensures forall c: ConnId :: c < |m.core.conns| ==>
              (Owns(now.core, c) <==> Owns(m.core, c) && !(c in m.core.inserted && Closable(m.core, c)))
  {
    forall c: ConnId | c < |m.core.conns|
      ensures Owns(now.core, c) <==> Owns(m.core, c) && !(c in m.core.inserted && Closable(m.core, c))
    {
      OneLeftOpen(protocol, pollers, workers, m, now, c);
    }
  }

  lemma OneLeftOpen(protocol: Protocol, pollers: nat, workers: nat, m: State, now: State, c: ConnId)
    requires Reachable(protocol, pollers, workers, m) && Reachable(protocol, pollers, workers, now)
    requires now.closer == CDone && m.section == Nobody && c < |m.core.conns|
    requires ShutOnly(m.core, now.core.(store := m.core.store), {})
    ensures Owns(now.core, c) <==> Owns(m.core, c) && !(c in m.core.inserted && Closable(m.core, c))
  {
    assert c in m.core.inserted && !Closable(m.core, c) ==> Owns(m.core, c) by {
      ReachableInv(protocol, pollers, workers, m);
    }
    assert Stored(m.core, c) ==> c in m.core.inserted by {
      ReachableInv(protocol, pollers, workers, m);
    }
    if c in m.core.inserted {
      ClosedIff(protocol, pollers, workers, now, c);
      CloseOwnership(protocol, pollers, workers, now);
      ProtocolReachable(protocol, pollers, workers, now);
    } else {
      assert Owns(now.core, c) == Owns(now.core.(store := m.core.store), c);
    }
  }

  lemma CallbackReady(protocol: Protocol, pollers: nat, workers: nat, s: State, k: nat)
    requires Reachable(protocol, pollers, workers, s) && k < |s.started|
    ensures s.started[k].c < |s.core.conns| && s.core.conns[s.started[k].c].kind != Blank
  {
    ReachableInv(protocol, pollers, workers, s);
    assert TaskOk(s.core, s.started[k]);
  }

  class TcpServerSocket {
    const protocol: Protocol             // which socket operation handler is installed
    const scheduler: E.EventScheduler    // m_eventScheduler
    var conns: seq<Conn>                 // every EventStorePointer made so far
    var open: map<Fd, ConnId>            // the kernel's descriptor table
    var clientEventStores: map<Fd, ConnId>
    var tasks: seq<Task>                 // what the pool has been handed and not taken
    ghost const workers: nat
    ghost var machine: State

    ghost function View(): (t: Core)
      reads this, scheduler.handlers
    {
      Core(protocol, conns, open, scheduler.Interests(), clientEventStores, machine.core.closes, machine.core.inserted)
    }

    /** The fields are what a run of the machine left. */
    ghost predicate Coupled()
      reads this, scheduler, scheduler.handlers
    {
      && scheduler.Valid() && Alone(machine)
      && Reachable(protocol, |scheduler.handlers|, workers, machine)
      && machine.core == View() && machine.queue == tasks && machine.index == scheduler.currentIndex
    }

    /** Between two calls. */
    ghost predicate Valid()
      reads this, scheduler, scheduler.handlers
    {
      && Coupled() && machine.section == Nobody && machine.acceptor == AIdle && machine.closer == CIdle
      && forall p :: 0 <= p < |machine.pollers| ==> machine.pollers[p] == PWait([])
    }

    constructor (protocol: Protocol, numCores: nat, ghost workers: nat)
      requires numCores > 0
      ensures Valid() && this.protocol == protocol && |scheduler.handlers| == numCores
      ensures conns == [] && open == map[] && clientEventStores == map[] && tasks == []
      ensures fresh(scheduler) && forall j :: 0 <= j < numCores ==> fresh(scheduler.handlers[j])
    {
      var made := new E.EventScheduler(numCores);
      this.protocol, scheduler, this.workers := protocol, made, workers;
      conns, open, clientEventStores, tasks := [], map[], map[], [];
      new;
      Begin();
    }

    ghost method Begin()
      requires scheduler.Valid() && scheduler.currentIndex == 0
      requires forall j :: 0 <= j < |scheduler.handlers| ==> scheduler.handlers[j].interest == map[]
      requires conns == [] && open == map[] && clientEventStores == map[] && tasks == []
      modifies this`machine
      ensures Valid()
    {
      ghost var s := AtStart(protocol, |scheduler.handlers|, workers);
      assert scheduler.Interests() == s.core.interest;
      machine := s;
    }

    /** close(m_socketId), as the kernel sees it. */
    method Close(c: ConnId)
      requires scheduler.Valid() && c < |conns|
      modifies this`open, scheduler.handlers
      ensures scheduler.Valid()
      ensures open == old(open) - {conns[c].fd}
      ensures forall j :: 0 <= j < |scheduler.handlers| ==>
                scheduler.handlers[j].interest == old(scheduler.handlers[j].interest) - {conns[c].fd}
    {
      open := open - {conns[c].fd};
      scheduler.Forget(conns[c].fd);
    }

    /** The run that began in `s` goes on to `t`. */
    ghost method Become(s: State, t: State)
      requires Reachable(protocol, |scheduler.handlers|, workers, machine)
      requires Leads(s, machine) && Leads(machine, t)
      modifies this`machine
      ensures machine == t && Leads(s, t) && Reachable(protocol, |scheduler.handlers|, workers, machine)
    {
      Follow(protocol, |scheduler.handlers|, workers, machine, t);
      Chain(s, machine, t);
      machine := t;
    }

    /** initConnection of the installed handler, on the fields. */
    method SetUp(c: ConnId, certifies: bool, shakes: bool)
      requires scheduler.Valid() && c < |conns|
      modifies this`conns, this`open, scheduler.handlers
      ensures scheduler.Valid() && View() == Initialised(old(View()), c, certifies, shakes).(closes := machine.core.closes)
    {
      var conn := conns[c];
      conns := conns[c := conn.(hadSsl := conn.ssl)];
      if protocol == Tls && conn.ssl && !(certifies && shakes) {
        Close(c);
        conns := conns[c := conn.(hadSsl := true, ssl := false)];
      }
      assert scheduler.Interests() == Initialised(old(View()), c, certifies, shakes).interest;
    }

    /** initConnection of the installed handler; `s` is where the call it is part of began. */
    method InitConnection(ghost s: State, c: ConnId, certifies: bool, shakes: bool)
      requires Coupled() && Leads(s, machine) && machine.section == InitConn(c) && c < |conns|
      modifies this`conns, this`open, this`machine, scheduler.handlers
      ensures Coupled() && Leads(s, machine)
      ensures machine == old(machine).(core := Initialised(old(machine.core), c, certifies, shakes), section := WantSched(c))
    {
      ghost var t := InitRun(machine, certifies, shakes);
      SetUp(c, certifies, shakes);
      Become(s, t);
    }

    /** m_eventScheduler.addSocket; epoll cannot take a closed descriptor. */
    method AddSocket(ghost s: State, c: ConnId, registers: bool)
      requires Coupled() && Leads(s, machine) && machine.section == WantSched(c) && c < |conns|
      modifies this`conns, this`machine, scheduler, scheduler.handlers
      ensures Coupled() && Leads(s, machine)
      ensures machine == old(machine).(
                index := NextIndex(old(machine)), section := Insert(c),
                core := Assigned(old(machine.core), c, NextIndex(old(machine)), registers && old(conns[c].fd in open)))
    {
      var takes := registers && conns[c].fd in open;
      ghost var t := AssignFresh(protocol, |scheduler.handlers|, workers, machine, takes);
      var added := scheduler.AddSocket(conns[c].fd, c, takes);
      if added {
        conns := conns[c := conns[c].(handler := Some(scheduler.currentIndex))];
      }
      assert scheduler.Interests() == t.core.interest;
      Become(s, t);
    }

    method MarkNew(ghost s: State, c: ConnId)
      requires Coupled() && Leads(s, machine) && machine.section == Convert(c) && c < |conns|
      modifies this`conns, this`machine
      ensures Coupled() && Leads(s, machine)
      ensures machine == old(machine).(
                section := InitConn(c),
                core := SetConn(old(machine.core), c, old(machine.core.conns[c]).(kind := New)))
    {
      ghost var t := MarkedNew(machine);
      conns := conns[c := conns[c].(kind := New)];
      Become(s, t);
    }

    /** The map entry and the pool task of a new connection. */
    method Keep(ghost s: State, c: ConnId)
      requires Coupled() && Leads(s, machine) && machine.section == Insert(c) && c < |conns|
      modifies this`clientEventStores, this`tasks, this`machine
      ensures Coupled() && Leads(s, machine)
      ensures machine == old(machine).(
                acceptor := AIdle, section := Nobody, queue := old(machine.queue) + [Task(c, New)],
                core := StoreConn(old(machine.core), c))
    {
      ghost var t := Inserted(machine);
      clientEventStores := clientEventStores[conns[c].fd := c];
      tasks := tasks + [Task(c, New)];
      Become(s, t);
    }

    /** The poller, the map entry and the queue entry. */
    method Place(ghost s: State, c: ConnId, registers: bool)
      requires Coupled() && Leads(s, machine) && machine.section == WantSched(c) && c < |conns|
      modifies this`conns, this`clientEventStores, this`tasks, this`machine, scheduler, scheduler.handlers
      ensures Coupled() && Leads(s, machine)
      ensures var m := old(machine);
              machine == m.(
                index := NextIndex(m), acceptor := AIdle, section := Nobody, queue := m.queue + [Task(c, New)],
                core := StoreConn(Assigned(m.core, c, NextIndex(m), registers && m.core.conns[c].fd in m.core.open), c))
    {
      AddSocket(s, c, registers);
      Keep(s, c);
    }

    /** The kind, and initConnection. */
    method Prepare(ghost s: State, c: ConnId, certifies: bool, shakes: bool)
      requires Coupled() && Leads(s, machine) && machine.section == Convert(c) && c < |conns|
      modifies this`conns, this`open, this`machine, scheduler.handlers
      ensures Coupled() && Leads(s, machine)
      ensures var m := old(machine);
              machine == m.(section := WantSched(c),
                            core := Initialised(SetConn(m.core, c, m.core.conns[c].(kind := New)), c, certifies, shakes))
    {
      MarkNew(s, c);
      InitConnection(s, c, certifies, shakes);
    }

    /** Everything after accept and inet_ntop, still under the registry mutex. */
    method Admit(ghost s: State, c: ConnId, certifies: bool, shakes: bool, registers: bool)
      requires Coupled() && Leads(s, machine) && machine.section == Convert(c) && c < |conns|
      modifies this`conns, this`open, this`clientEventStores, this`tasks, this`machine, scheduler, scheduler.handlers
      ensures Coupled() && Leads(s, machine)
      ensures machine == old(machine).(
                index := NextIndex(old(machine)), acceptor := AIdle, section := Nobody,
                queue := old(machine.queue) + [Task(c, New)],
                core := Admitted(old(machine.core), c, certifies, shakes, registers, NextIndex(old(machine))))
    {
      ghost var m := machine;
      Prepare(s, c, certifies, shakes);
      AdmittedParts(m.core, c, certifies, shakes, registers, NextIndex(m), machine.core);
      assert NextIndex(machine) == NextIndex(m);
      Place(s, c, registers);
    }

    /** accept and inet_ntop. */
    method AcceptClient(fd: Fd, converts: bool, ssl: bool) returns (c: ConnId)
      requires Valid() && fd !in open
      modifies this`conns, this`open, this`machine
      ensures Coupled() && Leads(old(machine), machine) && c == |old(conns)| && c < |conns|
      ensures machine == old(machine).(
                core := AddConn(old(machine.core), fd, ssl), acceptor := if converts then AInside else AIdle,
                section := if converts then Convert(c) else Nobody)
    {
      ghost var t := AcceptedRun(machine, fd, ssl, converts);
      c := |conns|;
      conns, open := conns + [Conn(fd, Blank, None, ssl, false)], open[fd := c];
      Stay(machine);
      Become(machine, t);
    }

    /** The call that goes all the way. */
    method Welcome(fd: Fd, ssl: bool, certifies: bool, shakes: bool, registers: bool)
      requires Valid() && fd !in open
      modifies this, scheduler, scheduler.handlers
      ensures Coupled() && Leads(old(machine), machine)
      ensures var m := old(machine);
              machine == m.(
                index := NextIndex(m), queue := m.queue + [Task(|m.core.conns|, New)],
                core := Admitted(AddConn(m.core, fd, ssl), |m.core.conns|, certifies, shakes, registers, NextIndex(m)))
    {
      ghost var m := machine;
      var c := AcceptClient(fd, true, ssl);
      Admit(m, c, certifies, shakes, registers);
    }

    /**
      handleIOEvent: accept one connection, initialise it, give it to a poller, store it and hand it
      to the pool.  `accepted` is what accept returns, `converts` says that inet_ntop succeeds,
      `ssl` is what m_SSL happens to hold, the others say which calls succeed.
    */
    method HandleIOEvent(accepted: Option<Fd>, converts: bool, ssl: bool, certifies: bool, shakes: bool, registers: bool)
      requires Valid() && (accepted.Some? ==> accepted.value !in open)
      modifies this, scheduler, scheduler.handlers
      ensures Valid() && Leads(old(machine), machine)
      ensures accepted == None ==> machine == old(machine)
      ensures accepted.Some? && !converts ==>
                machine == old(machine).(core := AddConn(old(machine.core), accepted.value, ssl))
      ensures accepted.Some? && converts ==>
                var fd, c := accepted.value, |old(conns)|;
                var shut := protocol == Tls && ssl && !(certifies && shakes);
                var taken := registers && !shut;
                && scheduler.currentIndex == (old(scheduler.currentIndex) + 1) % |scheduler.handlers|
                && conns == old(conns) + [Conn(fd, New, if taken then Some(scheduler.currentIndex) else None, ssl && !shut, ssl)]
                && open == (if shut then old(open) else old(open)[fd := c])
                && clientEventStores == old(clientEventStores)[fd := c]
                && tasks == old(tasks) + [Task(c, New)]
                && (forall j :: 0 <= j < |scheduler.handlers| ==>
                      scheduler.handlers[j].interest ==
                        if taken && j == scheduler.currentIndex then old(scheduler.handlers[j].interest)[fd := c]
                        else old(scheduler.handlers[j].interest))
                && machine.core.closes == old(machine.core.closes) + if shut then [CloseCall(c, Some(c))] else []
    {
      ghost var m := machine;
      if accepted == None {
        RefusedRun(m);
      } else if !converts {
        var c := AcceptClient(accepted.value, false, ssl);
      } else {
        ClosedIsUnlisted(protocol, |scheduler.handlers|, workers, m, accepted.value);
        Welcome(accepted.value, ssl, certifies, shakes, registers);
        AdmittedFacts(m.core, accepted.value, ssl, certifies, shakes, registers, NextIndex(m));
      }
    }

    /** closeConnection of the installed handler, on the fields. */
    method CloseConnection(c: ConnId)
      requires scheduler.Valid() && c < |conns|
      modifies this`conns, this`open, scheduler.handlers
      ensures scheduler.Valid() && View() == Shut(old(View()), c).(closes := machine.core.closes)
    {
      if protocol == Tcp {
        Close(c);
      } else if conns[c].ssl {
        Close(c);
        conns := conns[c := conns[c].(ssl := false)];
      }
      assert scheduler.Interests() == Shut(old(View()), c).interest;
    }

    /** The first part of removeSocket: the kind, and the poller that has the connection. */
    method Detach(ghost s: State, ghost p: PollerId, ghost batch: seq<Entry>, c: ConnId)
      returns (handled: bool)
      requires Coupled() && machine.section == Nobody && Leads(s, machine)
      requires p < |machine.pollers| && machine.pollers[p] == PServe([Entry(c, true)] + batch)
      modifies this`conns, this`machine, scheduler.handlers
      ensures Coupled() && Leads(s, machine) && handled
      ensures c < |old(machine).core.conns| && p < |old(machine).core.interest|
      ensures var m := old(machine);
              machine == m.(section := CloseConn(p, c), pollers := m.pollers[p := PInside(batch)],
                            core := Unlist(SetConn(m.core, c, m.core.conns[c].(kind := Closed)), c, p))
    {
      ghost var m := machine;
      NextEntryListed(protocol, |scheduler.handlers|, workers, m, p);
      ghost var t := EnterRemover(m, p);
      ghost var u := Unlisted(t, p);
      Chain(m, t, u);
      conns := conns[c := conns[c].(kind := Closed)];
      var socketEventHandler := conns[c].handler;
      handled := socketEventHandler.Some?;
      if handled {
        var removed := scheduler.RemoveSocket(socketEventHandler.value, conns[c].fd);
      }
      assert scheduler.Interests() == u.core.interest;
      Become(s, u);
    }

    /** The last part of removeSocket: the close task, and the map entry. */
    method Forget(ghost s: State, ghost p: PollerId, c: ConnId)
      requires Coupled() && Leads(s, machine) && machine.section == WantQueueClosed(p, c)
      requires c < |conns| && p < |machine.pollers| && machine.pollers[p].PInside?
      modifies this`clientEventStores, this`tasks, this`machine
      ensures Coupled() && Leads(s, machine)
      ensures var m := old(machine);
              machine == m.(core := EraseConn(m.core, c), queue := m.queue + [Task(c, Closed)], section := Nobody,
                            pollers := m.pollers[p := PServe(m.pollers[p].batch)])
    {
      ghost var t := Erased(machine);
      tasks := tasks + [Task(c, Closed)];
      if conns[c].fd in clientEventStores {
        clientEventStores := clientEventStores - {conns[c].fd};
      }
      assert clientEventStores == t.core.store;
      Become(s, t);
    }

    method ShutDown(ghost s: State, c: ConnId)
      requires Coupled() && Leads(s, machine) && machine.section.CloseConn? && machine.section.c == c && c < |conns|
      modifies this`conns, this`open, this`machine, scheduler.handlers
      ensures Coupled() && Leads(s, machine)
      ensures var m := old(machine);
              machine == m.(core := Shut(m.core, c), section := WantQueueClosed(m.section.p, c))
    {
      ghost var t := ShutInside(machine);
      CloseConnection(c);
      Become(s, t);
    }

    /** The two calls that only a connection with a handler gets. */
    method Withdraw(ghost s: State, ghost p: PollerId, ghost batch: seq<Entry>, c: ConnId)
      requires Coupled() && machine.section == Nobody && Leads(s, machine)
      requires p < |machine.pollers| && machine.pollers[p] == PServe([Entry(c, true)] + batch)
      modifies this`conns, this`open, this`machine, scheduler.handlers
      ensures Coupled() && Leads(s, machine)
      ensures c < |old(machine).core.conns| && p < |old(machine).core.interest|
      ensures var m := old(machine);
              machine == m.(core := Shut(Unlist(SetConn(m.core, c, m.core.conns[c].(kind := Closed)), c, p), c),
                            section := WantQueueClosed(p, c), pollers := m.pollers[p := PInside(batch)])
    {
      var handled := Detach(s, p, batch, c);
      if handled {
        ShutDown(s, c);
      }
    }

    /** removeSocket, called by poller `p` for the hang-up entry it is at. */
    method RemoveSocket(ghost s: State, ghost p: PollerId, ghost batch: seq<Entry>, c: ConnId)
      requires Coupled() && machine.section == Nobody && Leads(s, machine)
      requires p < |machine.pollers| && machine.pollers[p] == PServe([Entry(c, true)] + batch)
      modifies this`conns, this`open, this`clientEventStores, this`tasks, this`machine, scheduler.handlers
      ensures Coupled() && Leads(s, machine)
      ensures c < |old(machine).core.conns| && p < |old(machine).core.interest|
      ensures var m := old(machine);
              machine == m.(core := Removed(m.core, c, p), queue := m.queue + [Task(c, Closed)],
                            pollers := m.pollers[p := PServe(batch)])
    {
      UpdateTwice(machine.pollers, p, PInside(batch), PServe(batch));
      Withdraw(s, p, batch, c);
      Forget(s, p, c);
    }

    /** handleEvent: mark the connection, and hand it to the pool. */
    method HandleEvent(ghost s: State, ghost p: PollerId, ghost batch: seq<Entry>, c: ConnId)
      requires Coupled() && machine.section == Nobody && Leads(s, machine)
      requires p < |machine.pollers| && machine.pollers[p] == PServe([Entry(c, false)] + batch)
      modifies this`conns, this`tasks, this`machine
      ensures Coupled() && Leads(s, machine)
      ensures c < |old(machine).core.conns|
      ensures var m := old(machine);
              machine == m.(core := SetConn(m.core, c, m.core.conns[c].(kind := Data)), queue := m.queue + [Task(c, Data)],
                            pollers := m.pollers[p := PServe(batch)])
    {
      NextEntryListed(protocol, |scheduler.handlers|, workers, machine, p);
      ghost var t := DataServed(machine, p);
      conns := conns[c := conns[c].(kind := Data)];
      tasks := tasks + [Task(c, Data)];
      Become(s, t);
    }

    /** handleCallBackEvent by worker `w`, for the entry `k` it has taken, while nobody writes the
        kind: which callback is called. */
    method HandleCallBackEvent(c: ConnId, ghost w: nat, ghost k: nat) returns (call: Callback)
      requires Coupled() && w < |machine.workers| && machine.workers[w] == WTest1(k)
      requires k < |machine.started| && machine.started[k].c == c
      modifies this`machine
      ensures Coupled() && Leads(old(machine), machine)
      ensures c < |conns| && conns[c].kind != Blank
      ensures conns[c].kind == New <==> call == NewConnectionEvent
      ensures conns[c].kind == Data <==> call == DataEvent
      ensures conns[c].kind == Closed <==> call == ConnectionClosedEvent
      ensures machine == old(machine).(workers := old(machine).workers[w := WCallback(k)],
                outcomes := old(machine).outcomes[k := Outcome(conns[c].kind, conns[c].kind, conns[c].kind, call)])
    {
      CallbackReady(protocol, |scheduler.handlers|, workers, machine, k);
      ghost var t := KindTested(machine, w, k);
      Stay(machine);
      Become(machine, t);
      if conns[c].kind == Data {
        return DataEvent;
      } else if conns[c].kind == New {
        return NewConnectionEvent;
      } else if conns[c].kind == Closed {
        return ConnectionClosedEvent;
      }
      return NoCall;
    }

    /** The body of the loop over a batch. */
    method DispatchEvent(ghost m: State, ghost p: PollerId, events: seq<Entry>, i: nat)
      requires Coupled() && Leads(m, machine) && i < |events|
      requires machine.section == Nobody && ServedUpTo(m, machine, p, events, i) && Reportable(m.core, p, events)
      modifies this`conns, this`open, this`clientEventStores, this`tasks, this`machine, scheduler.handlers
      ensures Coupled() && Leads(m, machine) && ServedUpTo(m, machine, p, events, i + 1)
    {
      ghost var now := machine;
      assert events[i..] == [Entry(events[i].c, events[i].hangup)] + events[i + 1..];
      if events[i].hangup {
        RemoveSocket(m, p, events[i + 1..], events[i].c);
      } else {
        HandleEvent(m, p, events[i + 1..], events[i].c);
      }
      ServedOneMore(protocol, |scheduler.handlers|, workers, m, now, machine, p, events, i);
    }

    /**
      One round of startPolling at poller `p`, in which epoll_wait reports `events`: each entry in
      turn is removed or marked, and one task per entry is queued in the order of the batch.
    */
    method PollOnce(p: PollerId, events: seq<Entry>)
      requires Valid() && Reportable(View(), p, events)
      modifies this`conns, this`open, this`clientEventStores, this`tasks, this`machine, scheduler.handlers
      ensures Valid() && Leads(old(machine), machine)
      ensures Served(old(View()), View(), p, events)
      ensures tasks == old(tasks) + TasksOf(events)
    {
      ghost var m := machine;
      Stay(m);
      ServedNone(m.core, p);
      ProtocolReachable(protocol, |scheduler.handlers|, workers, m);
      if |events| < 1 {
        return;
      }
      ghost var t := BatchRun(m, p, events);
      Become(m, t);
      var i := 0;
      while i < |events|
        invariant Coupled() && Leads(m, machine) && ServedUpTo(m, machine, p, events, i)
      {
        DispatchEvent(m, p, events, i);
        i := i + 1;
      }
      t := Rested(machine, p);
      Become(m, t);
      assert events[..i] == events;
      assert machine.pollers == m.pollers;
    }

    /** closeConnection for the map entry under `fd`. */
    method CloseStored(ghost s: State, fd: Fd)
      requires Coupled() && Leads(s, machine) && machine.section.Visit? && fd in machine.section.todo
      requires fd in clientEventStores && clientEventStores[fd] < |conns|
      modifies this`conns, this`open, this`machine, scheduler.handlers
      ensures Coupled() && Leads(s, machine)
      ensures var m := old(machine);
              machine == m.(core := Shut(m.core, m.core.store[fd]), section := Visit(m.section.todo - {fd}))
    {
      ghost var t := Visited(machine, fd);
      CloseConnection(clientEventStores[fd]);
      Become(s, t);
    }

    method Clear(ghost s: State)
      requires Coupled() && Leads(s, machine) && machine.section == Visit({})
      modifies this`clientEventStores, this`machine
      ensures Coupled() && Leads(s, machine) && clientEventStores == map[]
      ensures var m := old(machine);
              machine == m.(core := m.core.(store := map[]), section := Finished, closer := CDone)
    {
      ghost var t := Cleared(machine);
      clientEventStores := map[];
      Become(s, t);
    }

    /**
      closeAllClientSocket, the map iterated in any order.  Afterwards the map is empty, and of the
      descriptors those of inserted connections are closed, except under TLS those of connections
      whose m_SSL was null from the start.
    */
    method CloseAllClientSocket()
      requires Valid()
      modifies this`conns, this`open, this`clientEventStores, this`machine, scheduler.handlers
      ensures Coupled() && Leads(old(machine), machine) && machine.closer == CDone
      ensures clientEventStores == map[] && |conns| == |old(conns)|
      ensures forall c: ConnId :: c < |conns| ==>
                (Owns(View(), c) <==> Owns(old(View()), c) && !(c in machine.core.inserted && Closable(old(View()), c)))
    {
      ghost var m := machine;
      ghost var t := EnterCloser(m);
      Stay(m);
      Become(m, t);
      var todo := clientEventStores.Keys;
      while todo != {}
        invariant Coupled() && Leads(m, machine) && machine == m.(core := machine.core, closer := CInside, section := Visit(todo))
        invariant ShutOnly(m.core, machine.core, todo)
        decreases todo
      {
        var fd :| fd in todo;
        VisitNext(protocol, |scheduler.handlers|, workers, m.core, machine, fd);
        CloseStored(m, fd);
        todo := todo - {fd};
      }
      Clear(m);
      LeftOpen(protocol, |scheduler.handlers|, workers, m, machine);
    }
  }
}
