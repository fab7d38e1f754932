/** What the application is told: a closed connection is closed for good, and its closed callback
    comes. */
module FlowCallbacks {
  import opened Common
  import P = PoolMachine
  import PT = PoolTheorems
  import M = FlowMachine
  import opened FlowMachine
  import opened FlowInvariant
  import opened FlowTheorems
  import opened FlowHangups

  // ---------------------------------------------------------------- what pollers have in hand

  /** The connection is registered with poller `p`. */
  predicate At(conns: seq<Conn>, c: ConnId, p: nat) {
    c < |conns| && conns[c].home == Some(p)
  }

  /** A poller has only its own connections in hand, and each of them once. */
  ghost predicate HandOk(conns: seq<Conn>, p: nat, pc: PollerPc) {
    && (forall i :: 0 <= i < |pc.batch| ==> At(conns, pc.batch[i].conn, p))
    && (forall i, j :: 0 <= i < j < |pc.batch| ==> pc.batch[i].conn != pc.batch[j].conn)
    && (pc.Marked? || Removing(pc) ==> At(conns, pc.conn, p) && !M.InBatch(pc.batch, pc.conn))
  }

  ghost predicate HandsInv(s: State) {
    forall p :: 0 <= p < |s.pollers| ==> HandOk(s.conns, p, s.pollers[p])
  }

  /** The poller is in removeSocket for `c`, behind the assignment of the kind. */
  predicate Past(pc: PollerPc, c: ConnId) {
    (pc.Deleting? || pc.Shutting? || pc.Submitting?) && pc.conn == c
  }

  /** The kind is closed from that assignment on.  Nobody has the connection in hand again, its last
      edge goes with epoll_ctl(DEL), and what is unread goes with close. */
  predicate GoneOk(conn: Conn, c: ConnId, pc: PollerPc) {
    && conn.hung
    && !M.InBatch(pc.batch, c) && (pc.Marked? || pc.WantReg? || pc.Closing? ==> pc.conn != c)
    && (conn.edge ==> pc == Deleting(c, pc.batch))
    && (conn.closed <==> pc != Deleting(c, pc.batch) && pc != Shutting(c, pc.batch))
    && (conn.closed ==> conn.unread == 0)
  }

  ghost predicate GoneOr(s: State, c: ConnId)
    requires c < |s.conns|
  {
    if s.conns[c].kind == ClosedConnection
    then s.conns[c].home.Some? && s.conns[c].home.value < |s.pollers| && GoneOk(s.conns[c], c, s.pollers[s.conns[c].home.value])
    else !s.conns[c].closed && forall p :: 0 <= p < |s.pollers| ==> !Past(s.pollers[p], c)
  }

  ghost predicate GoneInv(s: State) {
    forall c :: 0 <= c < |s.conns| ==> GoneOr(s, c)
  }

  lemma HandsStep(s: State, st: Step)
    requires HandsInv(s) && Enabled(s, st)
    ensures HandsInv(Next(s, st))
  {
    var t := Next(s, st);
    HomesKept(s, st);
    forall p | 0 <= p < |t.pollers| ensures HandOk(t.conns, p, t.pollers[p]) {
      assert HandOk(s.conns, p, s.pollers[p]);
      HandKept(s.conns, t.conns, p, s.pollers[p]);
      HandMoves(s, st, p);
    }
  }

  /** A connection keeps its poller. */
  lemma HomesKept(s: State, st: Step)
    requires Enabled(s, st)
    ensures var t := Next(s, st);
            && |t.conns| == |s.conns| && |t.pollers| == |s.pollers|
            && forall c :: 0 <= c < |s.conns| && s.conns[c].home.Some? ==> t.conns[c].home == s.conns[c].home
  {
    var t := Next(s, st);
    SizesStep(s, st);
    SameConns(s, st);
    forall c | 0 <= c < |s.conns| && s.conns[c].home.Some? ensures t.conns[c].home == s.conns[c].home {
      HomeFixed(s, st, c);
    }
  }

  lemma HandKept(conns: seq<Conn>, now: seq<Conn>, p: nat, pc: PollerPc)
    requires HandOk(conns, p, pc) && |now| == |conns|
    requires forall c :: 0 <= c < |conns| && conns[c].home.Some? ==> now[c].home == conns[c].home
    ensures HandOk(now, p, pc)
  {
  }

  lemma HandMoves(s: State, st: Step, p: nat)
    requires Enabled(s, st) && p < |s.pollers| == |Next(s, st).pollers|
    requires HandOk(Next(s, st).conns, p, s.pollers[p])
    ensures HandOk(Next(s, st).conns, p, Next(s, st).pollers[p])
  {
    match SideOf(st)
    case PollerSide =>
      if st.p == p {
        HandTakes(s, st);
      }
    case RemoverSide =>
      if st.p == p {
        HandTakes(s, st);
      }
    case _ => assert Next(s, st).pollers == s.pollers;
  }

  lemma HandTakes(s: State, st: Step)
    requires Enabled(s, st) && (SideOf(st) == PollerSide || SideOf(st) == RemoverSide)
    requires |Next(s, st).pollers| == |s.pollers| && HandOk(Next(s, st).conns, st.p, s.pollers[st.p])
    ensures HandOk(Next(s, st).conns, st.p, Next(s, st).pollers[st.p])
  {
    var batch := s.pollers[st.p].batch;
    if st.Mark? || st.TakeHangup? {
      var now := Next(s, st).pollers[st.p];
      assert now.conn == batch[0].conn && now.batch == batch[1..];
      FirstInHand(Next(s, st).conns, st.p, batch, now);
    }
  }

  lemma FirstInHand(conns: seq<Conn>, p: nat, batch: seq<Entry>, now: PollerPc)
    requires batch != [] && HandOk(conns, p, Serving(batch))
    requires now == Marked(batch[0].conn, batch[1..]) || now == WantReg(batch[0].conn, batch[1..])
    ensures HandOk(conns, p, now)
  {
    assert forall i :: 0 <= i < |batch[1..]| ==> batch[1..][i] == batch[i + 1];
  }

  lemma GoneAcceptor(s: State, st: Step, c: ConnId)
    requires HandsInv(s) && Enabled(s, st) && SideOf(st) == AcceptorSide && c < |s.conns| && GoneOr(s, c)
    ensures |Next(s, st).conns| == |s.conns| && GoneOr(Next(s, st), c)
  {
    assert Next(s, st).pollers == s.pollers;
  }

  lemma GonePoller(s: State, st: Step, c: ConnId)
    requires HandsInv(s) && Enabled(s, st) && SideOf(st) == PollerSide && c < |s.conns| && GoneOr(s, c)
    ensures |Next(s, st).conns| == |s.conns| && GoneOr(Next(s, st), c)
  {
    var t, p := Next(s, st), st.p;
    var batch := s.pollers[p].batch;
    assert HandOk(s.conns, p, s.pollers[p]);
    if st.Mark? {
      assert M.InBatch(batch, batch[0].conn);
      assert forall i :: 0 <= i < |batch[1..]| ==> batch[1..][i] == batch[i + 1];
    }
  }

  lemma GoneRemover(s: State, st: Step, c: ConnId)
    requires HandsInv(s) && BatchInv(s) && Enabled(s, st) && SideOf(st) == RemoverSide && c < |s.conns| && GoneOr(s, c)
    ensures |Next(s, st).conns| == |s.conns| && GoneOr(Next(s, st), c)
  {
    var t, p := Next(s, st), st.p;
    var batch := s.pollers[p].batch;
    assert HandOk(s.conns, p, s.pollers[p]);
    if st.TakeHangup? {
      assert M.InBatch(batch, batch[0].conn);
      assert forall i :: 0 <= i < |batch[1..]| ==> batch[1..][i] == batch[i + 1];
    }
  }

  lemma GoneWorker(s: State, st: Step, c: ConnId)
    requires Enabled(s, st) && (SideOf(st) == WorkerSide || SideOf(st) == PoolSide) && c < |s.conns| && GoneOr(s, c)
    ensures |Next(s, st).conns| == |s.conns| && GoneOr(Next(s, st), c)
  {
    var t := Next(s, st);
    assert t.pollers == s.pollers && |t.conns| == |s.conns|;
    assert t.conns[c] == s.conns[c].(unread := t.conns[c].unread, holder := t.conns[c].holder, failed := t.conns[c].failed);
    assert t.conns[c].unread <= s.conns[c].unread;
  }

  lemma GoneStep(s: State, st: Step)
    requires HandsInv(s) && BatchInv(s) && GoneInv(s) && Enabled(s, st)
    ensures GoneInv(Next(s, st))
  {
    HomesKept(s, st);
    forall c | 0 <= c < |Next(s, st).conns| ensures GoneOr(Next(s, st), c) {
      assert GoneOr(s, c);
      match SideOf(st)
      case AcceptorSide => GoneAcceptor(s, st, c);
      case PollerSide => GonePoller(s, st, c);
      case RemoverSide => GoneRemover(s, st, c);
      case _ => GoneWorker(s, st, c);
    }
  }

  // ---------------------------------------------------------------- the closed callback

  /** Where the news of a closed connection is. */
  datatype News = Told | OnSubmit(p: nat) | OnPush(e: nat) | InQueue(i: nat) | InTest(w: nat)

  predicate Carries(s: State, c: ConnId, x: News) {
    match x
    case Told => c in s.told
    case OnSubmit(p) => p < |s.pollers| && s.pollers[p].Submitting? && s.pollers[p].conn == c
    case OnPush(e) => e < |s.pool.enqs| && (s.pool.enqs[e] == P.WantPush(c) || s.pool.enqs[e] == P.Pushing(c))
    case InQueue(i) => i < |s.pool.queue| && s.pool.queue[i] == c
    case InTest(w) =>
      w < |s.stages| && (s.stages[w] == Test1(c) || s.stages[w] == Test2(c) || s.stages[w] == Test3(c))
  }

  function Pass(s: State, st: Step, c: ConnId, x: News): (y: News)
    requires Carries(s, c, x)
  {
    match x
    case Told => x
    case OnSubmit(p) => if st == HandClosed(p) then OnPush(p) else x
    case OnPush(e) => if st == PoolStep(P.EnqPush(e)) then InQueue(|s.pool.queue|) else x
    case InQueue(i) =>
      if st.PoolStep? && st.st.Take? then (if i == 0 then InTest(st.st.w) else InQueue(i - 1)) else x
    case InTest(w) => if st == Test(w) && s.stages[w].Test3? then Told else x
  }

  ghost predicate ToldInv(s: State) {
    && (forall c :: 0 <= c < |s.conns| && s.conns[c].closed ==> exists x :: Carries(s, c, x))
    && (forall c :: c in s.told ==> c < |s.conns| && s.conns[c].kind == ClosedConnection)
  }

  /** Outside the pool, the calls under way and the queue change only when a call is made. */
  lemma PassCall(s: State, st: Step, c: ConnId, x: News)
    requires PoolInv(s) && StageInv(s) && Enabled(s, st) && (st.Submit? || st.Hand? || st.HandClosed?) && Carries(s, c, x)
    ensures Carries(Next(s, st), c, Pass(s, st, c, x))
  {
  }

  lemma PassOutside(s: State, st: Step, c: ConnId, x: News)
    requires Enabled(s, st) && !st.Submit? && !st.Hand? && !st.HandClosed? && Carries(s, c, x)
    requires SideOf(st) == AcceptorSide || SideOf(st) == PollerSide || SideOf(st) == RemoverSide
    ensures Carries(Next(s, st), c, Pass(s, st, c, x))
  {
    var t := Next(s, st);
    assert t.pool == s.pool && t.stages == s.stages && t.told == s.told;
  }

  /** A worker that tests a closed connection reads the kind as closed all three times. */
  lemma PassTest(s: State, st: Step, c: ConnId, x: News)
    requires Enabled(s, st) && SideOf(st) == WorkerSide && c < |s.conns| && Carries(s, c, x)
    requires s.conns[c].kind == ClosedConnection
    ensures Carries(Next(s, st), c, Pass(s, st, c, x))
  {
    var t := Next(s, st);
    assert t.pool == s.pool && t.pollers == s.pollers;
  }

  lemma PassTake(s: State, w: nat, c: ConnId, x: News)
    requires PoolInv(s) && StageInv(s) && Enabled(s, PoolStep(P.Take(w))) && Carries(s, c, x)
    ensures Carries(Next(s, PoolStep(P.Take(w))), c, Pass(s, PoolStep(P.Take(w)), c, x))
  {
  }

  lemma PassPush(s: State, e: nat, c: ConnId, x: News)
    requires Enabled(s, PoolStep(P.EnqPush(e))) && Carries(s, c, x)
    ensures Carries(Next(s, PoolStep(P.EnqPush(e))), c, Pass(s, PoolStep(P.EnqPush(e)), c, x))
  {
  }

  lemma PassPool(s: State, st: Step, c: ConnId, x: News)
    requires PoolInv(s) && StageInv(s) && Enabled(s, st) && SideOf(st) == PoolSide && Carries(s, c, x)
    requires !(st.PoolStep? && (st.st.EnqPush? || st.st.Take?))
    ensures Carries(Next(s, st), c, Pass(s, st, c, x))
  {
    var t := Next(s, st);
    CallsKept(s.pool, if st.PoolStep? then st.st else if st.SpuriousWake? then P.Spurious(st.w) else P.Finish(st.w));
    assert t.pollers == s.pollers && t.told == s.told;
    assert st.Finish? ==> s.stages[st.w] == Returned;
  }

  lemma NewsPassed(s: State, st: Step, c: ConnId, x: News)
    requires PoolInv(s) && StageInv(s) && Enabled(s, st) && c < |s.conns| && Carries(s, c, x)
    requires s.conns[c].kind == ClosedConnection
    ensures Carries(Next(s, st), c, Pass(s, st, c, x))
  {
    match SideOf(st)
    case WorkerSide => PassTest(s, st, c, x);
    case PoolSide =>
      if st.PoolStep? && st.st.Take? {
        PassTake(s, st.st.w, c, x);
      } else if st.PoolStep? && st.st.EnqPush? {
        PassPush(s, st.st.e, c, x);
      } else {
        PassPool(s, st, c, x);
      }
    case _ =>
      if st.Submit? || st.Hand? || st.HandClosed? {
        PassCall(s, st, c, x);
      } else {
        PassOutside(s, st, c, x);
      }
  }

  /** A connection that is closed now was, or is closed by this step. */
  lemma ClosedBefore(s: State, st: Step, c: ConnId)
    requires Enabled(s, st) && |Next(s, st).conns| == |s.conns| && c < |s.conns| && Next(s, st).conns[c].closed
    ensures s.conns[c].closed || (st.Close? && Carries(Next(s, st), c, OnSubmit(st.p)))
  {
  }

  lemma ToldBefore(s: State, st: Step, c: ConnId)
    requires Enabled(s, st) && c in Next(s, st).told
    ensures c in s.told || (c < |s.conns| && s.conns[c].kind == ClosedConnection)
  {
  }

  /** The kind closed is the last one. */
  lemma KindStays(s: State, st: Step, c: ConnId)
    requires HandsInv(s) && GoneInv(s) && Enabled(s, st) && c < |s.conns| && s.conns[c].kind == ClosedConnection
    ensures c < |Next(s, st).conns| && Next(s, st).conns[c].kind == ClosedConnection
  {
    assert GoneOr(s, c);
    HomesKept(s, st);
    if st.Mark? {
      assert HandOk(s.conns, st.p, s.pollers[st.p]);
      assert M.InBatch(s.pollers[st.p].batch, s.pollers[st.p].batch[0].conn);
    }
  }

  lemma ToldStep(s: State, st: Step)
    requires PoolInv(s) && StageInv(s) && HandsInv(s) && GoneInv(s) && ToldInv(s) && Enabled(s, st)
    ensures ToldInv(Next(s, st))
  {
    var t := Next(s, st);
    HomesKept(s, st);
    forall c | 0 <= c < |t.conns| && t.conns[c].closed ensures exists x :: Carries(t, c, x) {
      ClosedBefore(s, st, c);
      if s.conns[c].closed {
        assert GoneOr(s, c);
        var x :| Carries(s, c, x);
        NewsPassed(s, st, c, x);
      }
    }
    forall c | c in t.told ensures c < |t.conns| && t.conns[c].kind == ClosedConnection {
      ToldBefore(s, st, c);
      KindStays(s, st, c);
    }
  }

  // ---------------------------------------------------------------- every connection is announced

  /** A registered connection has been enqueued once, or the acceptor is about to. */
  ghost predicate AnnouncedInv(s: State) {
    forall c :: 0 <= c < |s.conns| && s.conns[c].home.Some? ==>
      || s.acceptor == Registered(c) || c in s.pool.enqueued
      || (|s.pollers| < |s.pool.enqs| && (s.pool.enqs[|s.pollers|] == P.WantPush(c) || s.pool.enqs[|s.pollers|] == P.Pushing(c)))
  }

  lemma AnnouncedStep(s: State, st: Step)
    requires PoolInv(s) && AnnouncedInv(s) && Enabled(s, st)
    ensures AnnouncedInv(Next(s, st))
  {
    HomesKept(s, st);
    match SideOf(st)
    case PoolSide => AnnouncedPool(s, st);
    case AcceptorSide => AnnouncedAcceptor(s, st);
    case _ => AnnouncedOthers(s, st);
  }

  lemma AnnouncedPool(s: State, st: Step)
    requires PoolInv(s) && AnnouncedInv(s) && Enabled(s, st) && SideOf(st) == PoolSide
    ensures AnnouncedInv(Next(s, st))
  {
    var t := Next(s, st);
    assert t.conns == s.conns && t.acceptor == s.acceptor && t.pollers == s.pollers;
    EnqueuedMoves(s.pool, if st.PoolStep? then st.st else if st.SpuriousWake? then P.Spurious(st.w) else P.Finish(st.w), |s.pollers|);
  }

  lemma EnqueuedMoves(pool: P.State, q: P.Step, e: nat)
    requires P.Enabled(pool, q) && e < |pool.enqs| && !q.CallEnqueue?
    ensures var t := P.Next(pool, q);
            && |t.enqs| == |pool.enqs| && (forall c :: c in pool.enqueued ==> c in t.enqueued)
            && (forall c :: pool.enqs[e] == P.WantPush(c) || pool.enqs[e] == P.Pushing(c) ==>
                  t.enqs[e] == P.WantPush(c) || t.enqs[e] == P.Pushing(c) || c in t.enqueued)
  {
  }

  lemma AnnouncedAcceptor(s: State, st: Step)
    requires PoolInv(s) && AnnouncedInv(s) && Enabled(s, st) && SideOf(st) == AcceptorSide
    ensures AnnouncedInv(Next(s, st))
  {
  }

  lemma AnnouncedOthers(s: State, st: Step)
    requires PoolInv(s) && AnnouncedInv(s) && Enabled(s, st) && SideOf(st) != AcceptorSide && SideOf(st) != PoolSide
    ensures AnnouncedInv(Next(s, st))
  {
    var t := Next(s, st);
    HomesKept(s, st);
    assert t.acceptor == s.acceptor && t.pool.enqueued == s.pool.enqueued && |t.pool.enqs| == |s.pool.enqs|;
    assert t.pool.enqs[|s.pollers|] == s.pool.enqs[|s.pollers|];
    assert forall c :: 0 <= c < |s.conns| ==> t.conns[c].home == s.conns[c].home;
  }

  // ---------------------------------------------------------------- the registry mutex

  /** The acceptor is in handleIOEvent, behind epoll_ctl(ADD). */
  predicate Accepting(s: State) {
    s.acceptor.Registered? || !EnqueuerOutside(s, |s.pollers|)
  }

  ghost predicate RegistryInv(s: State) {
    && (forall p, q :: 0 <= p < q < |s.pollers| && InRegistry(s.pollers[p]) ==> !InRegistry(s.pollers[q]))
    && (forall p :: 0 <= p < |s.pollers| && InRegistry(s.pollers[p]) ==> !Accepting(s))
  }

  lemma RegistryStep(s: State, st: Step)
    requires PoolInv(s) && RegistryInv(s) && Enabled(s, st)
    ensures RegistryInv(Next(s, st))
  {
    match SideOf(st)
    case PoolSide => RegistryPool(s, st);
    case WorkerSide => assert Next(s, st).pollers == s.pollers && Next(s, st).pool == s.pool;
    case AcceptorSide => RegistryAcceptor(s, st);
    case _ => RegistryPollers(s, st);
  }

  lemma RegistryPool(s: State, st: Step)
    requires PoolInv(s) && RegistryInv(s) && Enabled(s, st) && SideOf(st) == PoolSide
    ensures RegistryInv(Next(s, st))
  {
    var t := Next(s, st);
    assert t.pollers == s.pollers && t.acceptor == s.acceptor;
    NoNewCall(s.pool, if st.PoolStep? then st.st else if st.SpuriousWake? then P.Spurious(st.w) else P.Finish(st.w), |s.pollers|);
  }

  lemma NoNewCall(pool: P.State, q: P.Step, e: nat)
    requires P.Enabled(pool, q) && e < |pool.enqs| && !q.CallEnqueue?
    ensures |P.Next(pool, q).enqs| == |pool.enqs|
    ensures pool.enqs[e] == P.Outside ==> P.Next(pool, q).enqs[e] == P.Outside
  {
  }

  lemma RegistryAcceptor(s: State, st: Step)
    requires PoolInv(s) && RegistryInv(s) && Enabled(s, st) && SideOf(st) == AcceptorSide
    ensures RegistryInv(Next(s, st))
  {
  }

  lemma RegistryPollers(s: State, st: Step)
    requires PoolInv(s) && RegistryInv(s) && Enabled(s, st) && (SideOf(st) == PollerSide || SideOf(st) == RemoverSide)
    ensures RegistryInv(Next(s, st))
  {
    var t, p := Next(s, st), st.p;
    assert t.acceptor == s.acceptor && t.pollers == s.pollers[p := t.pollers[p]];
    assert InRegistry(t.pollers[p]) ==> InRegistry(s.pollers[p]) || RegistryFree(s);
    assert |t.pool.enqs| == |s.pool.enqs| && t.pool.enqs[|s.pollers|] == s.pool.enqs[|s.pollers|];
  }

  // ---------------------------------------------------------------- every run

  ghost predicate CallbackInv(s: State) {
    Inv(s) && HandsInv(s) && GoneInv(s) && ToldInv(s) && AnnouncedInv(s) && RegistryInv(s)
  }

  lemma {:induction false} CallbackRun(s: State, steps: seq<Step>)
    requires CallbackInv(s) && Legal(s, steps)
    ensures CallbackInv(Exec(s, steps))
    decreases |steps|
  {
    if steps == [] {
    } else {
      InvStep(s, steps[0]);
      HandsStep(s, steps[0]);
      GoneStep(s, steps[0]);
      ToldStep(s, steps[0]);
      AnnouncedStep(s, steps[0]);
      RegistryStep(s, steps[0]);
      CallbackRun(Next(s, steps[0]), steps[1..]);
    }
  }

  lemma InitCallbacks(workers: nat, pollers: nat, arrived: seq<nat>, interrupts: nat, spurious: nat)
    ensures var s := Init(workers, pollers, arrived, interrupts, spurious);
            HandsInv(s) && GoneInv(s) && ToldInv(s) && AnnouncedInv(s) && RegistryInv(s)
  {
  }

  lemma ReachableCallbacks(workers: nat, pollers: nat, s: State)
    requires Reachable(workers, pollers, s)
    ensures CallbackInv(s)
  {
    var arrived, interrupts, spurious, steps :|
      var s0 := Init(workers, pollers, arrived, interrupts, spurious);
      Legal(s0, steps) && Exec(s0, steps) == s;
    InitInv(workers, pollers, arrived, interrupts, spurious);
    InitCallbacks(workers, pollers, arrived, interrupts, spurious);
    CallbackRun(Init(workers, pollers, arrived, interrupts, spurious), steps);
  }

  /** One thread at a time is inside the registry mutex: a poller that removes a connection, or the
      acceptor until its enqueuing is done. */
  lemma RegistryExcludes(workers: nat, pollers: nat, s: State, p: nat)
    requires Reachable(workers, pollers, s) && p < |s.pollers| && InRegistry(s.pollers[p])
    ensures s.acceptor == Idle && EnqueuerOutside(s, |s.pollers|)
    ensures forall q :: 0 <= q < |s.pollers| && q != p ==> !InRegistry(s.pollers[q])
  {
    ReachableCallbacks(workers, pollers, s);
  }

  /** Only a connection that has hung up is closed, and then for good: nothing is unread there, no
      event is pending, its kind is closed, and no poller has it in hand but to enqueue the news. */
  lemma ClosedForGood(workers: nat, pollers: nat, s: State, c: ConnId)
    requires Reachable(workers, pollers, s) && c < |s.conns| && s.conns[c].closed
    ensures s.conns[c].hung && s.conns[c].home.Some?
    ensures s.conns[c].unread == 0 && !s.conns[c].edge && s.conns[c].kind == ClosedConnection
    ensures forall p :: 0 <= p < |s.pollers| ==>
              !M.InBatch(s.pollers[p].batch, c)
              && (s.pollers[p].Marked? || Removing(s.pollers[p]) ==> s.pollers[p].conn != c || s.pollers[p].Submitting?)
  {
    ReachableCallbacks(workers, pollers, s);
    assert GoneOr(s, c);
    forall p | 0 <= p < |s.pollers| ensures s.conns[c].home != Some(p) ==>
      !M.InBatch(s.pollers[p].batch, c) && (s.pollers[p].Marked? || Removing(s.pollers[p]) ==> s.pollers[p].conn != c)
    {
      assert HandOk(s.conns, p, s.pollers[p]);
    }
  }

  /** The closed callback of a closed connection has been chosen, or its entry is on the way: in the
      hand of its poller, being pushed, queued, or with a worker that is still testing the kind. */
  lemma ClosedIsTold(workers: nat, pollers: nat, s: State, c: ConnId)
    requires Reachable(workers, pollers, s) && c < |s.conns| && s.conns[c].closed
    ensures exists x :: Carries(s, c, x)
  {
    ReachableCallbacks(workers, pollers, s);
  }

  /** When the server can make no step of its own: a registered connection has been announced to a
      worker, and its closed callback has been chosen if and only if its peer has hung up, and then
      it is closed and nothing is unread there. */
  lemma AtRestAllTold(workers: nat, pollers: nat, s: State, c: ConnId)
    requires workers > 0 && Reachable(workers, pollers, s) && !CanMove(s)
    requires c < |s.conns| && s.conns[c].home.Some?
    ensures c in P.Tasks(s.pool.started)
    ensures s.conns[c].hung <==> c in s.told
    ensures s.conns[c].hung ==> s.conns[c].closed && s.conns[c].unread == 0
  {
    AtRestAllRead(workers, pollers, s);
    ReachableCallbacks(workers, pollers, s);
    assert GoneOr(s, c);
    RestAnnounces(s, c);
    if s.conns[c].hung {
      AtRestAllClosed(workers, pollers, s, c);
      RestTells(s, c);
    }
  }

  lemma RestAnnounces(s: State, c: ConnId)
    requires Inv(s) && AnnouncedInv(s) && Idling(s) && !CanMove(s) && c < |s.conns| && s.conns[c].home.Some?
    ensures c in P.Tasks(s.pool.started)
  {
    NoCallAtRest(s, |s.pollers|);
    assert s.pool.enqueued == P.Tasks(s.pool.started) + s.pool.queue;
  }

  lemma NoCallAtRest(s: State, e: nat)
    requires Inv(s) && !CanMove(s) && e < |s.pool.enqs|
    ensures s.pool.enqs[e] == P.Outside
  {
    if s.pool.enqs[e] != P.Outside {
      PT.EnqueuerMoves(s.pool, e);
      PoolMoves(s);
    }
  }

  lemma RestTells(s: State, c: ConnId)
    requires Inv(s) && ToldInv(s) && Idling(s) && !CanMove(s) && c < |s.conns| && s.conns[c].closed
    ensures c in s.told
  {
    var x :| Carries(s, c, x);
    if x.OnPush? {
      NoCallAtRest(s, x.e);
    }
  }

  /** The data callback runs for data only: a worker gets there exactly by reading the kind as
      incoming data. */
  lemma PeekIff(s: State, st: Step, w: nat, c: ConnId)
    requires Enabled(s, st) && w < |s.stages| && s.stages[w] != Peek(c)
    ensures w < |Next(s, st).stages|
    ensures Next(s, st).stages[w] == Peek(c) <==>
              st == Test(w) && s.stages[w] == Test1(c) && s.conns[c].kind == IncomingData
  {
    if st.Test? {
      TestPeeks(s, st.w, w, c);
    }
  }

  /** The closed callback is chosen exactly by reading the kind as closed at the third comparison. */
  lemma ToldIff(s: State, st: Step, c: ConnId)
    requires Enabled(s, st) && c !in s.told
    ensures c in Next(s, st).told <==>
              st.Test? && s.stages[st.w] == Test3(c) && s.conns[c].kind == ClosedConnection
  {
  }

  /** A worker is done with an entry without the data callback exactly by reading the kind as new at the
      second comparison, or by coming to the third. */
  lemma DoneIff(s: State, st: Step, w: nat)
    requires Enabled(s, st) && w < |s.stages| && (s.stages[w].Test1? || s.stages[w].Test2? || s.stages[w].Test3?)
    ensures w < |Next(s, st).stages|
    ensures Next(s, st).stages[w] == Returned <==>
              && st == Test(w) && !s.stages[w].Test1?
              && (s.stages[w].Test2? ==> s.conns[s.stages[w].conn].kind == NewConnection)
  {
    match SideOf(st)
    case WorkerSide =>
      if st.Test? {
        TestEnds(s, st.w, w);
      } else {
        OthersTest(s, st, w);
      }
    case PoolSide =>
    case _ => assert Next(s, st).stages == s.stages;
  }

  lemma OthersTest(s: State, st: Step, w: nat)
    requires Enabled(s, st) && SideOf(st) == WorkerSide && !st.Test?
    requires w < |s.stages| && (s.stages[w].Test1? || s.stages[w].Test2? || s.stages[w].Test3?)
    ensures w < |Next(s, st).stages| && Next(s, st).stages[w] == s.stages[w]
  {
  }

  lemma TestEnds(s: State, v: nat, w: nat)
    requires Enabled(s, Test(v)) && w < |s.stages| && (s.stages[w].Test1? || s.stages[w].Test2? || s.stages[w].Test3?)
    ensures w < |Next(s, Test(v)).stages|
    ensures Next(s, Test(v)).stages[w] == Returned <==>
              && v == w && !s.stages[w].Test1?
              && (s.stages[w].Test2? ==> s.conns[s.stages[w].conn].kind == NewConnection)
  {
  }

  lemma TestPeeks(s: State, v: nat, w: nat, c: ConnId)
    requires Enabled(s, Test(v)) && w < |s.stages| && s.stages[w] != Peek(c)
    ensures w < |Next(s, Test(v)).stages|
    ensures Next(s, Test(v)).stages[w] == Peek(c) <==>
              v == w && s.stages[w] == Test1(c) && s.conns[c].kind == IncomingData
  {
  }
}
