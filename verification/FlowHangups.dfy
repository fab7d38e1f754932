/** No hang-up is lost: a registered connection whose peer has hung up is closed in the end. */
module FlowHangups {
  import opened Common
  import P = PoolMachine
  import opened FlowMachine
  import opened FlowInvariant
  import opened FlowTheorems

  /** What stands between a hang-up and the close it must lead to. */
  datatype Errand = OnEdge | OnEntry(p: nat, i: nat) | OnRemoval(p: nat)

  predicate BeforeClose(pc: PollerPc) {
    pc.WantReg? || pc.Closing? || pc.Deleting? || pc.Shutting?
  }

  predicate Runs(s: State, c: ConnId, x: Errand)
    requires c < |s.conns|
  {
    match x
    case OnEdge => s.conns[c].edge
    case OnEntry(p, i) => p < |s.pollers| && i < |s.pollers[p].batch| && s.pollers[p].batch[i] == Entry(c, true)
    case OnRemoval(p) => p < |s.pollers| && BeforeClose(s.pollers[p]) && s.pollers[p].conn == c
  }

  predicate Pending(conn: Conn) {
    conn.home.Some? && conn.hung && !conn.closed
  }

  ghost predicate HangupInv(s: State) {
    forall c :: 0 <= c < |s.conns| && Pending(s.conns[c]) ==> exists x :: Runs(s, c, x)
  }

  /** Where the errand is after a step. */
  function Proceed(s: State, st: Step, c: ConnId, x: Errand): (y: Errand)
    requires c < |s.conns| && Runs(s, c, x)
  {
    match x
    case OnEdge =>
      if st.Collect? && st.c == c && st.p < |s.pollers| then OnEntry(st.p, |s.pollers[st.p].batch|)
      else if st.Delete? && st.p < |s.pollers| && s.pollers[st.p].Deleting? && s.pollers[st.p].conn == c then OnRemoval(st.p)
      else x
    case OnEntry(p, i) =>
      if st == TakeHangup(p) && i == 0 then OnRemoval(p)
      else if (st == Mark(p) || st == TakeHangup(p)) && i > 0 then OnEntry(p, i - 1)
      else x
    case OnRemoval(p) => x
  }

  lemma PollerProceeds(s: State, st: Step, c: ConnId, x: Errand)
    requires Enabled(s, st) && SideOf(st) == PollerSide && c < |s.conns| && s.conns[c].hung && Runs(s, c, x)
    ensures var t := Next(s, st);
            |t.conns| == |s.conns| && Runs(t, c, Proceed(s, st, c, x))
  {
  }

  lemma RemoverProceeds(s: State, st: Step, c: ConnId, x: Errand)
    requires Enabled(s, st) && SideOf(st) == RemoverSide && c < |s.conns| && Runs(s, c, x)
    requires !(st.Close? && s.pollers[st.p].conn == c)
    ensures var t := Next(s, st);
            |t.conns| == |s.conns| && Runs(t, c, Proceed(s, st, c, x))
  {
  }

  /** Nobody else touches pollers, and an edge goes only with its poller. */
  lemma OthersProceed(s: State, st: Step, c: ConnId, x: Errand)
    requires Enabled(s, st) && SideOf(st) != PollerSide && SideOf(st) != RemoverSide && c < |s.conns| && Runs(s, c, x)
    requires !(st.Register? && st.c == c)
    ensures var t := Next(s, st);
            |t.conns| == |s.conns| && Runs(t, c, Proceed(s, st, c, x))
  {
    var t := Next(s, st);
    match SideOf(st)
    case PoolSide => assert t.pollers == s.pollers && t.conns == s.conns;
    case WorkerSide => assert t.pollers == s.pollers && |t.conns| == |s.conns| && t.conns[c].edge == s.conns[c].edge;
    case AcceptorSide =>
      assert t.pollers == s.pollers && |t.conns| == |s.conns| && (s.conns[c].edge ==> t.conns[c].edge);
    case _ =>
  }

  /** A pending hang-up was pending before, or has just come in. */
  lemma PendingBefore(s: State, st: Step, c: ConnId)
    requires Enabled(s, st) && c < |s.conns| && |Next(s, st).conns| == |s.conns| && Pending(Next(s, st).conns[c])
    ensures Pending(s.conns[c]) || ((st.HangUp? || st.Register?) && st.c == c)
    ensures !(st.Close? && s.pollers[st.p].conn == c)
  {
  }

  lemma HangupStep(s: State, st: Step)
    requires HangupInv(s) && Enabled(s, st)
    ensures HangupInv(Next(s, st))
  {
    var t := Next(s, st);
    SameConns(s, st);
    forall c | 0 <= c < |t.conns| && Pending(t.conns[c]) ensures exists x :: Runs(t, c, x) {
      if (st.HangUp? || st.Register?) && st.c == c {
        assert Runs(t, c, OnEdge);
      } else {
        PendingBefore(s, st, c);
        var x :| Runs(s, c, x);
        if SideOf(st) == PollerSide {
          PollerProceeds(s, st, c, x);
        } else if SideOf(st) == RemoverSide {
          RemoverProceeds(s, st, c, x);
        } else {
          OthersProceed(s, st, c, x);
        }
      }
    }
  }

  lemma SameConns(s: State, st: Step)
    requires Enabled(s, st)
    ensures |Next(s, st).conns| == |s.conns|
  {
  }

  lemma {:induction false} HangupRun(s: State, steps: seq<Step>)
    requires HangupInv(s) && Legal(s, steps)
    ensures HangupInv(Exec(s, steps))
    decreases |steps|
  {
    if steps == [] {
    } else {
      var t := Next(s, steps[0]);
      HangupStep(s, steps[0]);
      HangupRun(t, steps[1..]);
    }
  }

  /** In every reachable state, a registered connection that has hung up is closed, or has a pending
      edge, a hang-up entry in a batch, or a poller on its way to close it. */
  lemma NoLostHangup(workers: nat, pollers: nat, s: State, c: ConnId)
    requires Reachable(workers, pollers, s) && c < |s.conns| && s.conns[c].home.Some? && s.conns[c].hung
    ensures s.conns[c].closed || exists x :: Runs(s, c, x)
  {
    var arrived, interrupts, spurious, steps :|
      var s0 := Init(workers, pollers, arrived, interrupts, spurious);
      Legal(s0, steps) && Exec(s0, steps) == s;
    HangupRun(Init(workers, pollers, arrived, interrupts, spurious), steps);
  }

  lemma ErrandMoves(s: State, c: ConnId, x: Errand)
    requires Inv(s) && c < |s.conns| && Runs(s, c, x)
    ensures CanMove(s)
  {
    match x
    case OnEdge => WitnessEdgeMoves(s, c);
    case OnEntry(p, i) => PollerMoves(s, p);
    case OnRemoval(p) => PollerMoves(s, p);
  }

  /** When the server can make no step of its own, every registered connection that has hung up
      has been closed. */
  lemma AtRestAllClosed(workers: nat, pollers: nat, s: State, c: ConnId)
    requires Reachable(workers, pollers, s) && !CanMove(s)
    requires c < |s.conns| && s.conns[c].home.Some? && s.conns[c].hung
    ensures s.conns[c].closed
  {
    ReachableInv(workers, pollers, s);
    NoLostHangup(workers, pollers, s, c);
    if !s.conns[c].closed {
      var x :| Runs(s, c, x);
      ErrandMoves(s, c, x);
    }
  }
}
