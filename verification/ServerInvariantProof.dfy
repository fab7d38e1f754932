/** Every step of every thread keeps the invariant of ServerMachine. */
module ServerInvariantProof {
  import opened Common
  import opened ServerMachine
  import opened ServerCore
  import opened ServerCoreProof
  import opened ServerInvariant

  // ---------------------------------------------------------------- kinds only move forward

  /** Connections are only added, and no kind moves back. */
  ghost predicate Forward(core: Core, t: Core) {
    && |core.conns| <= |t.conns|
    && (forall c :: 0 <= c < |core.conns| ==> Rank(core.conns[c].kind) <= Rank(t.conns[c].kind))
  }

  lemma InsideForward(core: Core, at: Section, ok: bool, fd: Fd, ssl: bool)
    requires AddingInv(core, at) && Possible(core, at, ok, fd)
    ensures Forward(core, Effect(core, at, ok, fd, ssl))
  {
    if AcceptorInside(at) {
      AcceptorForward(core, at, ok, fd, ssl);
    } else if RemoverInside(at) {
      RemoverForward(core, at, ok, fd, ssl);
    }
  }

  lemma AcceptorForward(core: Core, at: Section, ok: bool, fd: Fd, ssl: bool)
    requires AddingInv(core, at) && Possible(core, at, ok, fd) && AcceptorInside(at)
    ensures Forward(core, Effect(core, at, ok, fd, ssl))
  {
    if Opening(at) {
      OpeningForward(core, at, ok, fd, ssl);
    } else {
      RegisteringForward(core, at, ok, fd, ssl);
    }
  }

  lemma OpeningForward(core: Core, at: Section, ok: bool, fd: Fd, ssl: bool)
    requires AddingInv(core, at) && Possible(core, at, ok, fd) && Opening(at)
    ensures Forward(core, Effect(core, at, ok, fd, ssl))
  {
  }

  lemma RegisteringForward(core: Core, at: Section, ok: bool, fd: Fd, ssl: bool)
    requires Possible(core, at, ok, fd) && (Scheduling(at) || Registering(at) || at == Leave)
    ensures Forward(core, Effect(core, at, ok, fd, ssl))
  {
  }

  lemma RemoverForward(core: Core, at: Section, ok: bool, fd: Fd, ssl: bool)
    requires Possible(core, at, ok, fd) && RemoverInside(at)
    ensures Forward(core, Effect(core, at, ok, fd, ssl))
  {
  }

  lemma StepForward(s: State, st: Step)
    requires Inv(s) && Enabled(s, st)
    ensures Forward(s.core, Next(s, st).core)
  {
    match st
    case Inside(ok, fd, ssl) => InsideForward(s.core, s.section, ok, fd, ssl);
    case PStep(p, _, _, _) => PollerForward(s, st);
    case _ =>
  }

  lemma PollerForward(s: State, st: Step)
    requires BatchInv(s) && Enabled(s, st) && st.PStep?
    ensures Forward(s.core, Next(s, st).core)
  {
  }

  // ---------------------------------------------------------------- tasks and callbacks

  lemma TaskKept(s: State, t: State)
    requires TaskInv(s) && Forward(s.core, t.core) && t.started == s.started
    requires t.queue == s.queue || (t.queue != [] && t.queue[..|t.queue| - 1] == s.queue && TaskOk(t.core, t.queue[|t.queue| - 1]))
    requires |t.pollers| == |s.pollers|
    requires forall p :: 0 <= p < |t.pollers| && (t.pollers[p].PWantQueue? || t.pollers[p].PPush?) ==>
               TaskOk(t.core, Task(t.pollers[p].c, Data))
    ensures TaskInv(t)
  {
    forall i | 0 <= i < |t.queue| ensures TaskOk(t.core, t.queue[i]) {
      if i < |s.queue| {
        assert t.queue[i] == s.queue[i];
      }
    }
  }

  lemma CallbackKept(s: State, t: State)
    requires CallbackInv(s) && Forward(s.core, t.core)
    requires t.started == s.started && t.workers == s.workers && t.outcomes == s.outcomes
    ensures CallbackInv(t)
  {
    forall w | 0 <= w < |t.workers| ensures TestOk(t.core, t.started, t.workers[w]) {
      assert TestOk(s.core, s.started, s.workers[w]);
    }
    forall k | k in t.outcomes && k < |t.started| ensures SeenOk(t.core, t.started[k], t.outcomes[k]) {
      assert SeenOk(s.core, s.started[k], s.outcomes[k]);
    }
  }

  // ---------------------------------------------------------------- the thread inside

  /** Another poller's entries stay live, whatever the thread inside does. */
  lemma StaysLive(core: Core, at: Section, ok: bool, fd: Fd, ssl: bool, p: PollerId, c: ConnId)
    requires EffectOk(core, at, ok, fd) && PositionInv(core, at) && ListInv(core, at) && Live(core, p, c)
    requires !CloserInside(at) && !(Unlisting(at) && at.p == p && at.c == c)
    ensures Live(Effect(core, at, ok, fd, ssl), p, c)
  {
    ListedAfter(core, at, ok, fd, ssl);
  }

  lemma BatchMoves(core: Core, t: Core, at: Section, to: Section, p: PollerId, pc: PollerPc)
    requires BatchOk(core, at, p, pc) && (Unlisting(at) && at.p == p ==> pc.PInside?)
    requires forall c: ConnId :: Live(core, p, c) && !(Unlisting(at) && at.p == p && at.c == c) ==> Live(t, p, c)
    requires Unlisting(to) ==> Unlisting(at) && to.p == at.p && to.c == at.c
    ensures BatchOk(t, to, p, pc) && BatchOk(t, to, p, PServe(pc.batch))
  {
  }

  lemma InsideBatch(s: State, ok: bool, fd: Fd, ssl: bool)
    requires CoreInv(s.core, s.section) && PlacesInv(s) && BatchInv(s) && EnabledInside(s, ok, fd)
    ensures BatchInv(NextInside(s, ok, fd, ssl))
  {
    var t := NextInside(s, ok, fd, ssl);
    AfterUnlisting(s.core, s.section, NextIndex(s), ok, fd);
    forall p | 0 <= p < |t.pollers| ensures BatchOk(t.core, t.section, p, t.pollers[p]) {
      assert BatchOk(s.core, s.section, p, s.pollers[p]);
      if CloserInside(s.section) {
        assert t.pollers[p] == PWait([]);
      } else {
        StayLive(s.core, s.section, ok, fd, ssl, p);
        BatchMoves(s.core, t.core, s.section, t.section, p, s.pollers[p]);
      }
    }
  }

  lemma StayLive(core: Core, at: Section, ok: bool, fd: Fd, ssl: bool, p: PollerId)
    requires CoreInv(core, at) && Possible(core, at, ok, fd) && !CloserInside(at)
    ensures forall c: ConnId :: Live(core, p, c) && !(Unlisting(at) && at.p == p && at.c == c) ==>
              Live(Effect(core, at, ok, fd, ssl), p, c)
  {
    assert EffectOk(core, at, ok, fd) by { ClosesOwn(core, at, ok, fd); }
    forall c: ConnId | Live(core, p, c) && !(Unlisting(at) && at.p == p && at.c == c)
      ensures Live(Effect(core, at, ok, fd, ssl), p, c)
    {
      StaysLive(core, at, ok, fd, ssl, p, c);
    }
  }

  lemma AfterUnlisting(core: Core, at: Section, next: PollerId, ok: bool, fd: Fd)
    requires Possible(core, at, ok, fd)
    ensures var to := After(core, at, next, ok, fd);
            Unlisting(to) ==> Unlisting(at) && to.p == at.p && to.c == at.c
  {
  }

  /** Inside, every kind of thread stays what it is until it leaves. */
  predicate Follows(at: Section, to: Section) {
    && (AcceptorInside(at) && at != Leave ==> AcceptorInside(to))
    && (RemoverInside(at) && !at.LeaveRemove? ==> RemoverInside(to) && to.p == at.p)
    && (CloserInside(at) && at != LeaveAll ==> CloserInside(to))
    && (at == Leave || at.LeaveRemove? ==> to == Nobody)
    && (at == LeaveAll ==> to == Finished)
    && (AcceptorInside(at) || RemoverInside(at) || CloserInside(at))
  }

  lemma AfterFollows(core: Core, at: Section, next: PollerId, ok: bool, fd: Fd)
    requires Possible(core, at, ok, fd)
    ensures Follows(at, After(core, at, next, ok, fd))
  {
    if AcceptorInside(at) {
      AcceptorFollows(core, at, next, ok, fd);
    } else if RemoverInside(at) {
      RemoverFollows(core, at, next, ok, fd);
    } else {
      CloserFollows(core, at, next, ok, fd);
    }
  }

  lemma AcceptorFollows(core: Core, at: Section, next: PollerId, ok: bool, fd: Fd)
    requires Possible(core, at, ok, fd) && AcceptorInside(at)
    ensures Follows(at, After(core, at, next, ok, fd))
  {
    var to := After(core, at, next, ok, fd);
    assert if at == Leave then to == Nobody else AcceptorInside(to) by {
      if Opening(at) {
        OpeningFollows(core, at, next, ok, fd);
      } else {
        RegisteringFollows(core, at, next, ok, fd);
      }
    }
    AcceptorGoesOn(at, to);
  }

  lemma AcceptorGoesOn(at: Section, to: Section)
    requires AcceptorInside(at) && if at == Leave then to == Nobody else AcceptorInside(to)
    ensures Follows(at, to)
  {
    AcceptorOnly(at);
  }

  lemma AcceptorOnly(at: Section)
    requires AcceptorInside(at)
    ensures !RemoverInside(at) && !CloserInside(at) && !at.LeaveRemove? && at != LeaveAll
  {
  }

  lemma OpeningFollows(core: Core, at: Section, next: PollerId, ok: bool, fd: Fd)
    requires Possible(core, at, ok, fd) && Opening(at)
    ensures var to := After(core, at, next, ok, fd);
            Opening(to) || Scheduling(to) || to == Leave
  {
  }

  lemma RegisteringFollows(core: Core, at: Section, next: PollerId, ok: bool, fd: Fd)
    requires Possible(core, at, ok, fd) && (Scheduling(at) || Registering(at) || at == Leave)
    ensures var to := After(core, at, next, ok, fd);
            if at == Leave then to == Nobody else Scheduling(to) || Registering(to) || to == Leave
  {
  }

  lemma RemoverFollows(core: Core, at: Section, next: PollerId, ok: bool, fd: Fd)
    requires Possible(core, at, ok, fd) && RemoverInside(at)
    ensures Follows(at, After(core, at, next, ok, fd))
  {
  }

  lemma CloserFollows(core: Core, at: Section, next: PollerId, ok: bool, fd: Fd)
    requires Possible(core, at, ok, fd) && CloserInside(at)
    ensures Follows(at, After(core, at, next, ok, fd))
  {
  }

  lemma PlacesFollow(s: State, t: State)
    requires PlacesInv(s) && Follows(s.section, t.section) && |t.core.interest| == |s.core.interest|
    requires t.acceptor == if s.section == Leave then AIdle else s.acceptor
    requires t.closer == if s.section == LeaveAll then CDone else s.closer
    requires t.pollers == if s.section.LeaveRemove? then s.pollers[s.section.p := PServe(s.pollers[s.section.p].batch)] else s.pollers
    ensures PlacesInv(t)
  {
    OneRole(s.section);
    OneRole(t.section);
  }

  /** The section belongs to one kind of thread at most. */
  lemma OneRole(at: Section)
    ensures !(AcceptorInside(at) && RemoverInside(at)) && !(AcceptorInside(at) && CloserInside(at))
    ensures !(RemoverInside(at) && CloserInside(at))
    ensures at == Nobody || at == Finished ==> !AcceptorInside(at) && !RemoverInside(at) && !CloserInside(at)
  {
  }

  lemma InsidePlaces(s: State, ok: bool, fd: Fd, ssl: bool)
    requires PlacesInv(s) && EnabledInside(s, ok, fd)
    ensures PlacesInv(NextInside(s, ok, fd, ssl))
  {
    AfterFollows(s.core, s.section, NextIndex(s), ok, fd);
    SameInterests(s.core, s.section, ok, fd, ssl);
    PlacesFollow(s, NextInside(s, ok, fd, ssl));
  }

  lemma SameInterests(core: Core, at: Section, ok: bool, fd: Fd, ssl: bool)
    requires Possible(core, at, ok, fd)
    ensures |Effect(core, at, ok, fd, ssl).interest| == |core.interest|
  {
  }

  lemma InsideTasks(s: State, ok: bool, fd: Fd, ssl: bool)
    requires AddingInv(s.core, s.section) && FateInv(s.core) && RemoveInv(s.core, s.section)
    requires TaskInv(s) && EnabledInside(s, ok, fd)
    ensures TaskInv(NextInside(s, ok, fd, ssl))
  {
    var t := NextInside(s, ok, fd, ssl);
    InsideForward(s.core, s.section, ok, fd, ssl);
    PushedOk(s, ok, fd, ssl);
    PendingKept(s, t);
    TaskKept(s, t);
  }

  lemma PendingKept(s: State, t: State)
    requires TaskInv(s) && Forward(s.core, t.core)
    requires t.pollers == if s.section.LeaveRemove? && s.section.p < |s.pollers|
                          then s.pollers[s.section.p := PServe(s.pollers[s.section.p].batch)] else s.pollers
    ensures forall p :: 0 <= p < |t.pollers| && (t.pollers[p].PWantQueue? || t.pollers[p].PPush?) ==>
              TaskOk(t.core, Task(t.pollers[p].c, Data))
  {
    forall p | 0 <= p < |t.pollers| && (t.pollers[p].PWantQueue? || t.pollers[p].PPush?)
      ensures TaskOk(t.core, Task(t.pollers[p].c, Data))
    {
      assert t.pollers[p] == s.pollers[p] && TaskOk(s.core, Task(s.pollers[p].c, Data));
    }
  }

  lemma InsideCallbacks(s: State, ok: bool, fd: Fd, ssl: bool)
    requires AddingInv(s.core, s.section) && CallbackInv(s) && EnabledInside(s, ok, fd)
    ensures CallbackInv(NextInside(s, ok, fd, ssl))
  {
    var t := NextInside(s, ok, fd, ssl);
    InsideForward(s.core, s.section, ok, fd, ssl);
    InsideLeaves(s, t, ok, fd, ssl);
    CallbackKept(s, t);
  }

  lemma InsideLeaves(s: State, t: State, ok: bool, fd: Fd, ssl: bool)
    requires EnabledInside(s, ok, fd) && t == NextInside(s, ok, fd, ssl)
    ensures t.core == Effect(s.core, s.section, ok, fd, ssl)
    ensures t.started == s.started && t.workers == s.workers && t.outcomes == s.outcomes
  {
  }

  lemma PushedOk(s: State, ok: bool, fd: Fd, ssl: bool)
    requires AddingInv(s.core, s.section) && FateInv(s.core) && RemoveInv(s.core, s.section) && EnabledInside(s, ok, fd)
    ensures var t := NextInside(s, ok, fd, ssl);
            t.queue == s.queue || (t.queue != [] && t.queue[..|t.queue| - 1] == s.queue && TaskOk(t.core, t.queue[|t.queue| - 1]))
  {
  }

  lemma InsideMutexes(s: State, ok: bool, fd: Fd, ssl: bool)
    requires QueueMutexInv(s) && SocketMutexInv(s) && EnabledInside(s, ok, fd)
    ensures QueueMutexInv(NextInside(s, ok, fd, ssl)) && SocketMutexInv(NextInside(s, ok, fd, ssl))
  {
    var t := NextInside(s, ok, fd, ssl);
    InsideHolds(s.core, s.section, NextIndex(s), ok, fd);
    assert forall l: Lock :: HoldsInside(t.section, l) ==> HoldsInside(s.section, l) || Free(s, l);
    MutexesKept(s, t);
  }

  /** The thread inside takes only free mutexes, and no other thread moves. */
  lemma MutexesKept(s: State, t: State)
    requires QueueMutexInv(s) && SocketMutexInv(s) && t.workers == s.workers
    requires t.pollers == if s.section.LeaveRemove? && s.section.p < |s.pollers|
                          then s.pollers[s.section.p := PServe(s.pollers[s.section.p].batch)] else s.pollers
    requires forall l: Lock :: HoldsInside(t.section, l) ==> HoldsInside(s.section, l) || Free(s, l)
    ensures QueueMutexInv(t) && SocketMutexInv(t)
  {
  }

  /** A thread inside acquires a mutex only where it waits for it. */
  lemma InsideHolds(core: Core, at: Section, next: PollerId, ok: bool, fd: Fd)
    requires Possible(core, at, ok, fd)
    ensures var to := After(core, at, next, ok, fd);
            forall l: Lock :: HoldsInside(to, l) ==> HoldsInside(at, l) || WantsInside(at) == Some(l)
  {
    if AcceptorInside(at) {
      AcceptorHolds(core, at, next, ok, fd);
    } else {
      OthersHold(core, at, next, ok, fd);
    }
  }

  lemma AcceptorHolds(core: Core, at: Section, next: PollerId, ok: bool, fd: Fd)
    requires Possible(core, at, ok, fd) && AcceptorInside(at)
    ensures var to := After(core, at, next, ok, fd);
            forall l: Lock :: HoldsInside(to, l) ==> HoldsInside(at, l) || WantsInside(at) == Some(l)
  {
  }

  lemma OthersHold(core: Core, at: Section, next: PollerId, ok: bool, fd: Fd)
    requires Possible(core, at, ok, fd) && !AcceptorInside(at)
    ensures var to := After(core, at, next, ok, fd);
            forall l: Lock :: HoldsInside(to, l) ==> HoldsInside(at, l) || WantsInside(at) == Some(l)
  {
  }

  lemma InsideKeepsAll(s: State, ok: bool, fd: Fd, ssl: bool)
    requires Inv(s) && EnabledInside(s, ok, fd)
    ensures Inv(NextInside(s, ok, fd, ssl))
  {
    InsideKeeps(s.core, s.section, NextIndex(s), ok, fd, ssl);
    InsidePlaces(s, ok, fd, ssl);
    InsideBatch(s, ok, fd, ssl);
    InsideTasks(s, ok, fd, ssl);
    InsideCallbacks(s, ok, fd, ssl);
    InsideMutexes(s, ok, fd, ssl);
  }

  // ---------------------------------------------------------------- entering the section

  /** Entering the empty section, nothing but the position changes. */
  lemma AcceptorKeepsAll(s: State)
    requires Inv(s) && EnabledA(s)
    ensures Inv(NextA(s))
  {
    var t := NextA(s);
    assert CoreInv(t.core, t.section) by {
      if s.acceptor == AWantReg { EnterAccept(s.core); }
    }
    assert PlacesInv(t) by { AcceptorPlaces(s); }
    EntersQuietly(s, t);
  }

  lemma AcceptorPlaces(s: State)
    requires PlacesInv(s) && EnabledA(s)
    ensures PlacesInv(NextA(s))
  {
  }

  lemma CloserPlaces(s: State)
    requires PlacesInv(s) && EnabledC(s)
    ensures PlacesInv(NextC(s))
  {
  }

  lemma CloserKeepsAll(s: State)
    requires Inv(s) && EnabledC(s)
    ensures Inv(NextC(s))
  {
    var t := NextC(s);
    assert CoreInv(t.core, t.section) by {
      if s.closer == CWantReg { EnterVisit(s.core); }
    }
    assert PlacesInv(t) by { CloserPlaces(s); }
    EntersQuietly(s, t);
  }

  lemma EntersQuietly(s: State, t: State)
    requires BatchInv(s) && TaskInv(s) && CallbackInv(s) && QueueMutexInv(s) && SocketMutexInv(s)
    requires t.core == s.core && t.pollers == s.pollers && t.workers == s.workers
    requires t.queue == s.queue && t.started == s.started && t.outcomes == s.outcomes
    requires t.section == s.section || t.section == Accept || t.section.Visit?
    ensures BatchInv(t) && TaskInv(t) && CallbackInv(t) && QueueMutexInv(t) && SocketMutexInv(t)
  {
    BatchesStay(s, t);
    TaskKept(s, t);
    CallbackKept(s, t);
    MutexesStay(s, t);
  }

  lemma BatchesStay(s: State, t: State)
    requires BatchInv(s) && t.core == s.core && t.pollers == s.pollers
    requires t.section == s.section || t.section == Accept || t.section.Visit?
    ensures BatchInv(t)
  {
    forall p | 0 <= p < |t.pollers| ensures BatchOk(t.core, t.section, p, t.pollers[p]) {
      assert BatchOk(s.core, s.section, p, s.pollers[p]);
    }
  }

  lemma MutexesStay(s: State, t: State)
    requires QueueMutexInv(s) && SocketMutexInv(s)
    requires t.pollers == s.pollers && t.workers == s.workers
    requires t.section == s.section || t.section == Accept || t.section.Visit?
    ensures QueueMutexInv(t) && SocketMutexInv(t)
  {
  }

  // ---------------------------------------------------------------- pollers

  /** What a poller's step may change: its own position, and then one of kind, queue and section. */
  ghost predicate PollerMoved(s: State, t: State, p: PollerId) {
    && p < |s.pollers| == |t.pollers| && !s.pollers[p].PInside?
    && t == s.(pollers := s.pollers[p := t.pollers[p]], core := t.core, section := t.section, queue := t.queue)
    && var pc := s.pollers[p];
       && t.section == (if pc.PWantReg? then SetClosed(p, pc.c) else s.section)
       && t.queue == (if pc.PPush? then s.queue + [Task(pc.c, Data)] else s.queue)
       && (t.pollers[p].PInside? <==> pc.PWantReg?)
       && (pc.PWantReg? ==> !HoldsInside(s.section, RegMutex))
       && (t.pollers[p].PPush? ==> pc.PWantQueue? && pc.c == t.pollers[p].c && Free(s, QueueMutex))
       && (t.pollers[p].PWantQueue? ==>
             pc.PServe? && pc.batch != [] && pc.batch[0].c == t.pollers[p].c < |t.core.conns|
             && t.core.conns[t.pollers[p].c].kind == Data)
  }

  lemma PollerMoves(s: State, st: Step)
    requires Enabled(s, st) && st.PStep?
    ensures PollerMoved(s, Next(s, st), st.p)
  {
  }

  /** Once closing has begun, no poller has anything to do. */
  lemma PollerResting(s: State, st: Step)
    requires PlacesInv(s) && Enabled(s, st) && st.PStep?
    ensures s.closer == CIdle && |Next(s, st).core.interest| == |s.core.interest|
  {
  }

  lemma PollerPlaces(s: State, st: Step)
    requires PlacesInv(s) && Enabled(s, st) && st.PStep?
    ensures PlacesInv(Next(s, st))
  {
    PollerMoves(s, st);
    PollerResting(s, st);
    PlacesMoved(s, Next(s, st), st.p);
  }

  lemma PlacesMoved(s: State, t: State, p: PollerId)
    requires PlacesInv(s) && PollerMoved(s, t, p) && s.closer == CIdle && |t.core.interest| == |s.core.interest|
    ensures PlacesInv(t)
  {
  }

  lemma PollerCore(s: State, st: Step)
    requires CoreInv(s.core, s.section) && PlacesInv(s) && BatchInv(s) && Enabled(s, st) && st.PStep?
    ensures CoreInv(Next(s, st).core, Next(s, st).section)
  {
    var pc := s.pollers[st.p];
    assert BatchOk(s.core, s.section, st.p, pc);
    if pc.PServe? && pc.batch != [] && !pc.batch[0].hangup {
      MarkKeeps(s.core, s.section, st.p, pc.batch[0].c);
    } else if pc.PWantReg? {
      PollerEnters(s, st);
    }
  }

  lemma PollerEnters(s: State, st: Step)
    requires CoreInv(s.core, s.section) && PlacesInv(s) && Enabled(s, st) && st.PStep? && s.pollers[st.p].PWantReg?
    requires BatchOk(s.core, s.section, st.p, s.pollers[st.p])
    ensures CoreInv(Next(s, st).core, Next(s, st).section)
  {
    assert s.section == Nobody;
    EnterRemove(s.core, st.p, s.pollers[st.p].c);
  }

  /** What a poller's interest set holds is live, if the poller is not removing. */
  lemma ReportedLive(core: Core, at: Section, p: PollerId, fd: Fd)
    requires MapsInv(core) && ListInv(core, at) && p < |core.interest| && fd in core.interest[p]
    requires !(RemoverInside(at) && at.p == p)
    ensures Live(core, p, core.interest[p][fd])
  {
    assert Listed(core, p, core.interest[p][fd]);
  }

  /** A new entry is live and was not in the batch. */
  lemma CollectBatch(s: State, p: PollerId, fd: Fd, hup: bool)
    requires MapsInv(s.core) && ListInv(s.core, s.section) && PlacesInv(s)
    requires EnabledP(s, p, fd, false) && s.pollers[p].PWait? && BatchOk(s.core, s.section, p, s.pollers[p])
    ensures BatchOk(s.core, s.section, p, PWait(s.pollers[p].batch + [Entry(s.core.interest[p][fd], hup)]))
  {
    var batch := s.pollers[p].batch;
    var c := s.core.interest[p][fd];
    assert !(RemoverInside(s.section) && s.section.p == p);
    ReportedLive(s.core, s.section, p, fd);
    var more := batch + [Entry(c, hup)];
    forall i | 0 <= i < |more| ensures Live(s.core, p, more[i].c) && (i < |batch| ==> more[i] == batch[i] && batch[i].c != c) {
    }
  }

  /** Taking the first entry in hand. */
  lemma FirstEntry(core: Core, at: Section, p: PollerId, batch: seq<Entry>)
    requires batch != [] && BatchOk(core, at, p, PServe(batch)) && !(Unlisting(at) && at.p == p)
    ensures BatchOk(core, at, p, PWantReg(batch[0].c, batch[1..]))
    ensures BatchOk(core, at, p, PWantQueue(batch[0].c, batch[1..]))
  {
    assert Live(core, p, batch[0].c);
    assert forall i :: 0 <= i < |batch[1..]| ==> batch[1..][i] == batch[i + 1];
  }

  lemma MarkLive(core: Core, c: ConnId, p: PollerId)
    requires c < |core.conns|
    ensures forall d: ConnId :: Live(core, p, d) ==> Live(SetConn(core, c, core.conns[c].(kind := Data)), p, d)
  {
    SetConnFacts(core, c, core.conns[c].(kind := Data));
  }

  lemma OtherBatches(s: State, st: Step)
    requires PlacesInv(s) && BatchInv(s) && Enabled(s, st) && st.PStep?
    ensures var t := Next(s, st);
            forall q :: 0 <= q < |t.pollers| && q != st.p ==> BatchOk(t.core, t.section, q, t.pollers[q])
  {
    var t, p := Next(s, st), st.p;
    var pc := s.pollers[p];
    assert BatchOk(s.core, s.section, p, pc);
    forall q | 0 <= q < |t.pollers| && q != p ensures BatchOk(t.core, t.section, q, t.pollers[q]) {
      assert BatchOk(s.core, s.section, q, s.pollers[q]);
      if pc.PServe? && pc.batch != [] {
        MarkLive(s.core, pc.batch[0].c, q);
      }
    }
  }

  lemma PollerBatch(s: State, st: Step)
    requires MapsInv(s.core) && ListInv(s.core, s.section) && PlacesInv(s) && BatchInv(s) && Enabled(s, st) && st.PStep?
    ensures BatchInv(Next(s, st))
  {
    var t, p := Next(s, st), st.p;
    var pc := s.pollers[p];
    assert BatchOk(s.core, s.section, p, pc);
    OtherBatches(s, st);
    if pc.PWait? && !st.flag {
      CollectBatch(s, p, st.fd, st.hup);
    } else if pc.PServe? && pc.batch != [] {
      FirstEntry(s.core, s.section, p, pc.batch);
      MarkLive(s.core, pc.batch[0].c, p);
    }
    assert BatchOk(t.core, t.section, p, t.pollers[p]);
  }

  lemma PollerTasks(s: State, st: Step)
    requires ListInv(s.core, s.section) && BatchInv(s) && TaskInv(s) && Enabled(s, st) && st.PStep?
    ensures TaskInv(Next(s, st))
  {
    var t := Next(s, st);
    PollerMoves(s, st);
    PollerForward(s, st);
    TasksMoved(s, t, st.p);
  }

  lemma TasksMoved(s: State, t: State, p: PollerId)
    requires TaskInv(s) && PollerMoved(s, t, p) && Forward(s.core, t.core)
    ensures TaskInv(t)
  {
    if s.pollers[p].PPush? {
      assert t.queue[..|t.queue| - 1] == s.queue;
    }
    TaskKept(s, t);
  }

  lemma PollerCallbacks(s: State, st: Step)
    requires BatchInv(s) && CallbackInv(s) && Enabled(s, st) && st.PStep?
    ensures CallbackInv(Next(s, st))
  {
    PollerForward(s, st);
    CallbackKept(s, Next(s, st));
  }

  lemma PollerQueueMutex(s: State, st: Step)
    requires QueueMutexInv(s) && Enabled(s, st) && st.PStep?
    ensures QueueMutexInv(Next(s, st))
  {
    PollerMoves(s, st);
    QueueMutexMoved(s, Next(s, st), st.p);
  }

  lemma QueueMutexMoved(s: State, t: State, p: PollerId)
    requires QueueMutexInv(s) && PollerMoved(s, t, p)
    ensures QueueMutexInv(t)
  {
  }

  lemma PollerSocketMutex(s: State, st: Step)
    requires SocketMutexInv(s) && Enabled(s, st) && st.PStep?
    ensures SocketMutexInv(Next(s, st))
  {
  }

  lemma PollerKeepsAll(s: State, st: Step)
    requires Inv(s) && Enabled(s, st) && st.PStep?
    ensures Inv(Next(s, st))
  {
    PollerPlaces(s, st);
    PollerCore(s, st);
    PollerBatch(s, st);
    PollerTasks(s, st);
    PollerCallbacks(s, st);
    PollerQueueMutex(s, st);
    PollerSocketMutex(s, st);
  }

  // ---------------------------------------------------------------- workers

  lemma WorkerTasks(s: State, st: Step)
    requires TaskInv(s) && Enabled(s, st) && st.WStep?
    ensures TaskInv(Next(s, st))
  {
    WorkerFrame(s, st);
    TasksTaken(s, Next(s, st));
  }

  lemma TasksTaken(s: State, t: State)
    requires TaskInv(s) && t.core == s.core && t.pollers == s.pollers
    requires (t.queue == s.queue && t.started == s.started)
             || (s.queue != [] && t.queue == s.queue[1..] && t.started == s.started + [s.queue[0]])
    ensures TaskInv(t)
  {
  }

  /** The if-else chain, on kinds that only moved forward from the tag. */
  lemma DispatchOk(tag: Kind, r1: Kind, r2: Kind, r3: Kind)
    requires tag != Blank && Rank(tag) <= Rank(r1) <= Rank(r2) <= Rank(r3)
    requires r1 == Data ==> r2 == Data && r3 == Data
    requires r2 == New ==> r3 == New
    ensures OutcomeOk(tag, Outcome(r1, r2, r3, Dispatch(r1, r2, r3)))
  {
  }

  lemma TakeCallbacks(s: State, w: nat, again: bool, c: ConnId)
    requires CallbackInv(s) && EnabledW(s, w, again, c) && s.workers[w] == WTake
    ensures CallbackInv(NextW(s, w, again, c))
  {
    var t := NextW(s, w, again, c);
    forall v | 0 <= v < |t.workers| ensures TestOk(t.core, t.started, t.workers[v]) {
      assert TestOk(s.core, s.started, s.workers[v]);
    }
  }

  /** Reading the kind once more. */
  lemma TestCallbacks(s: State, w: nat, again: bool, c: ConnId)
    requires TaskInv(s) && CallbackInv(s) && EnabledW(s, w, again, c) && Testing(s.workers[w])
    ensures CallbackInv(NextW(s, w, again, c))
  {
    var pc := s.workers[w];
    assert TestOk(s.core, s.started, pc);
    var task := s.started[pc.k];
    assert TaskOk(s.core, task);
    var r := s.core.conns[task.c].kind;
    match pc
    case WTest1(k) =>
      if r == Data { Concluded(s, w, k, r, r, r); } else { Moved(s, w, WTest2(k, r)); }
    case WTest2(k, r1) =>
      if r == New { Concluded(s, w, k, r1, r, r); } else { Moved(s, w, WTest3(k, r1, r)); }
    case WTest3(k, r1, r2) =>
      Concluded(s, w, k, r1, r2, r);
  }

  lemma Concluded(s: State, w: nat, k: nat, r1: Kind, r2: Kind, r3: Kind)
    requires CallbackInv(s) && w < |s.workers| && Testing(s.workers[w]) && k == s.workers[w].k < |s.started|
    requires var tag := s.started[k].tag; tag != Blank && Rank(tag) <= Rank(r1) <= Rank(r2) <= Rank(r3)
    requires r1 == Data ==> r2 == Data && r3 == Data
    requires r2 == New ==> r3 == New
    requires SeenOk(s.core, s.started[k], Outcome(r1, r2, r3, NoCall))
    ensures CallbackInv(Conclude(s, w, k, r1, r2, r3))
  {
    DispatchOk(s.started[k].tag, r1, r2, r3);
  }

  /** A worker goes on without choosing a callback. */
  lemma Moved(s: State, w: nat, pc: WorkerPc)
    requires CallbackInv(s) && w < |s.workers| && TestOk(s.core, s.started, pc)
    requires Testing(pc) ==> Testing(s.workers[w]) && pc.k == s.workers[w].k
    ensures CallbackInv(SetWorker(s, w, pc))
  {
  }

  lemma WorkerCallbacks(s: State, st: Step)
    requires TaskInv(s) && CallbackInv(s) && Enabled(s, st) && st.WStep?
    ensures CallbackInv(Next(s, st))
  {
    if Testing(s.workers[st.w]) {
      TestCallbacks(s, st.w, st.again, st.c);
    } else if s.workers[st.w] == WTake {
      TakeCallbacks(s, st.w, st.again, st.c);
    } else {
      IdleCallbacks(s, st.w, st.again, st.c);
    }
  }

  lemma IdleCallbacks(s: State, w: nat, again: bool, c: ConnId)
    requires CallbackInv(s) && EnabledW(s, w, again, c) && !Testing(s.workers[w]) && s.workers[w] != WTake
    ensures CallbackInv(NextW(s, w, again, c))
  {
    assert TestOk(s.core, s.started, s.workers[w]);
    Moved(s, w, NextW(s, w, again, c).workers[w]);
  }

  lemma WorkerQueueMutex(s: State, st: Step)
    requires QueueMutexInv(s) && Enabled(s, st) && st.WStep?
    ensures QueueMutexInv(Next(s, st))
  {
    WorkerFrame(s, st);
    WorkerTakesQueue(s, st);
    QueueMutexTaken(s, Next(s, st), st.w);
  }

  lemma WorkerTakesQueue(s: State, st: Step)
    requires Enabled(s, st) && st.WStep?
    ensures var t := Next(s, st);
            && |t.workers| == |s.workers| && t.workers == s.workers[st.w := t.workers[st.w]]
            && (t.workers[st.w].WTake? ==> Free(s, QueueMutex))
  {
  }

  lemma QueueMutexTaken(s: State, t: State, w: nat)
    requires QueueMutexInv(s) && t.pollers == s.pollers && t.section == s.section
    requires w < |s.workers| == |t.workers| && t.workers == s.workers[w := t.workers[w]]
    requires t.workers[w].WTake? ==> Free(s, QueueMutex)
    ensures QueueMutexInv(t)
  {
    if t.workers[w].WTake? {
      assert forall p :: 0 <= p < |s.pollers| ==> !HoldsPoller(s.pollers[p], QueueMutex);
      assert forall v :: 0 <= v < |s.workers| ==> !HoldsWorker(s.workers[v], QueueMutex);
    }
  }

  /** A worker holds a socket mutex only where it waited for it, or did before. */
  lemma WorkerHolds(s: State, st: Step, l: Lock)
    requires Enabled(s, st) && st.WStep?
    ensures var t := Next(s, st);
            && (forall v :: 0 <= v < |s.workers| && v != st.w ==>
                  HoldsWorker(t.workers[v], l) == HoldsWorker(s.workers[v], l))
            && (HoldsWorker(t.workers[st.w], l) ==> WantsWorker(s.workers[st.w]) == Some(l))
  {
  }

  lemma WorkerSocketMutex(s: State, st: Step)
    requires SocketMutexInv(s) && Enabled(s, st) && st.WStep?
    ensures SocketMutexInv(Next(s, st))
  {
    var t := Next(s, st);
    forall c: ConnId ensures SocketMoved(s, t, st.w, c) {
      WorkerHolds(s, st, SocketMutex(c));
    }
    SocketMutexMoved(s, t, st.w);
  }

  /** Worker `w` takes the socket mutex only when it is free, and the others keep what they hold. */
  ghost predicate SocketMoved(s: State, t: State, w: nat, c: ConnId) {
    && w < |s.workers| == |t.workers| && t.section == s.section
    && (forall v :: 0 <= v < |s.workers| && v != w ==>
          HoldsWorker(t.workers[v], SocketMutex(c)) == HoldsWorker(s.workers[v], SocketMutex(c)))
    && (HoldsWorker(t.workers[w], SocketMutex(c)) ==> Free(s, SocketMutex(c)))
  }

  lemma SocketMutexMoved(s: State, t: State, w: nat)
    requires SocketMutexInv(s) && forall c: ConnId :: SocketMoved(s, t, w, c)
    ensures SocketMutexInv(t)
  {
    forall v, c | 0 <= v < |t.workers| && HoldsWorker(t.workers[v], SocketMutex(c))
      ensures !HoldsInside(t.section, SocketMutex(c))
    {
      assert SocketMoved(s, t, w, c);
    }
    forall v, u, c | 0 <= v < u < |t.workers| && HoldsWorker(t.workers[v], SocketMutex(c))
      ensures !HoldsWorker(t.workers[u], SocketMutex(c))
    {
      assert SocketMoved(s, t, w, c);
    }
  }

  lemma WorkerKeepsAll(s: State, st: Step)
    requires Inv(s) && Enabled(s, st) && st.WStep?
    ensures Inv(Next(s, st))
  {
    WorkerTasks(s, st);
    WorkerCallbacks(s, st);
    WorkerQueueMutex(s, st);
    WorkerSocketMutex(s, st);
    WorkerFrame(s, st);
    forall p | 0 <= p < |s.pollers| ensures BatchOk(Next(s, st).core, Next(s, st).section, p, Next(s, st).pollers[p]) {
      assert BatchOk(s.core, s.section, p, s.pollers[p]);
    }
  }

  lemma WorkerFrame(s: State, st: Step)
    requires Enabled(s, st) && st.WStep?
    ensures var t := Next(s, st);
            && t.core == s.core && t.section == s.section && t.acceptor == s.acceptor && t.pollers == s.pollers && t.closer == s.closer
            && ((t.queue == s.queue && t.started == s.started)
                || (s.queue != [] && t.queue == s.queue[1..] && t.started == s.started + [s.queue[0]]))
  {
  }

  // ---------------------------------------------------------------- every run

  lemma InitialInv(protocol: Protocol, pollers: nat, workers: nat)
    ensures Inv(Init(protocol, pollers, workers))
  {
    InitialCore(protocol, pollers);
    InitialThreads(protocol, pollers, workers);
  }

  lemma InitialThreads(protocol: Protocol, pollers: nat, workers: nat)
    ensures var s := Init(protocol, pollers, workers);
            PlacesInv(s) && BatchInv(s) && TaskInv(s) && CallbackInv(s) && QueueMutexInv(s) && SocketMutexInv(s)
  {
  }

  lemma InitialCore(protocol: Protocol, pollers: nat)
    ensures CoreInv(Core(protocol, [], map[], seq(pollers, _ => map[]), map[], [], {}), Nobody)
  {
  }

  lemma InvStep(s: State, st: Step)
    requires Inv(s) && Enabled(s, st)
    ensures Inv(Next(s, st))
  {
    match st
    case AStep => AcceptorKeepsAll(s);
    case PStep(_, _, _, _) => PollerKeepsAll(s, st);
    case WStep(_, _, _) => WorkerKeepsAll(s, st);
    case CStep => CloserKeepsAll(s);
    case Inside(ok, fd, ssl) => InsideKeepsAll(s, ok, fd, ssl);
  }

  lemma {:induction false} InvRun(s: State, steps: seq<Step>)
    requires Inv(s) && Legal(s, steps)
    ensures Inv(Exec(s, steps))
    decreases |steps|
  {
    if steps == [] {
    } else {
      var t := Next(s, steps[0]);
      InvStep(s, steps[0]);
      InvRun(t, steps[1..]);
    }
  }

  lemma ReachableInv(protocol: Protocol, pollers: nat, workers: nat, s: State)
    requires Reachable(protocol, pollers, workers, s)
    ensures Inv(s)
  {
    var steps :|
      Legal(Init(protocol, pollers, workers), steps) && Exec(Init(protocol, pollers, workers), steps) == s;
    InitialInv(protocol, pollers, workers);
    InvRun(Init(protocol, pollers, workers), steps);
  }
}
