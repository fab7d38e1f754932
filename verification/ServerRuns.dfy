/** Prolonging runs of the server. */
module ServerRuns {
  import opened Common
  import opened ServerMachine

  /** A run can be prolonged by any enabled step. */
  lemma Extend(protocol: Protocol, pollers: nat, workers: nat, s: State, st: Step)
    requires Reachable(protocol, pollers, workers, s) && Enabled(s, st)
    ensures Reachable(protocol, pollers, workers, Next(s, st))
  {
    var s0 := Init(protocol, pollers, workers);
    var steps :| Legal(s0, steps) && Exec(s0, steps) == s;
    Append(s0, steps, st);
  }

  lemma {:induction false} Append(s: State, steps: seq<Step>, st: Step)
    requires Legal(s, steps) && Enabled(Exec(s, steps), st)
    ensures Legal(s, steps + [st]) && Exec(s, steps + [st]) == Next(Exec(s, steps), st)
    decreases |steps|
  {
    if steps == [] {
      assert [st][1..] == [];
    } else {
      var t := Next(s, steps[0]);
      Append(t, steps[1..], st);
      assert (steps + [st])[1..] == steps[1..] + [st];
    }
  }

  lemma Start(protocol: Protocol, pollers: nat, workers: nat)
    ensures Reachable(protocol, pollers, workers, Init(protocol, pollers, workers))
  {
    var s0 := Init(protocol, pollers, workers);
    assert Legal(s0, []) && Exec(s0, []) == s0;
  }

  // ---------------------------------------------------------------- one thread at a time

  ghost predicate Leads(s: State, t: State) {
    exists steps :: Legal(s, steps) && Exec(s, steps) == t
  }

  lemma Stay(s: State)
    ensures Leads(s, s)
  {
    assert Legal(s, []) && Exec(s, []) == s;
  }

  lemma Then(s: State, t: State, st: Step)
    requires Leads(s, t) && Enabled(t, st)
    ensures Leads(s, Next(t, st))
  {
    var steps :| Legal(s, steps) && Exec(s, steps) == t;
    Append(s, steps, st);
  }

  lemma {:induction false} ThenAll(s: State, t: State, steps: seq<Step>)
    requires Leads(s, t) && Legal(t, steps)
    ensures Leads(s, Exec(t, steps))
    decreases |steps|
  {
    if steps == [] {
    } else {
      Then(s, t, steps[0]);
      ThenAll(s, Next(t, steps[0]), steps[1..]);
    }
  }

  lemma Chain(s: State, t: State, u: State)
    requires Leads(s, t) && Leads(t, u)
    ensures Leads(s, u)
  {
    var steps :| Legal(t, steps) && Exec(t, steps) == u;
    ThenAll(s, t, steps);
  }

  lemma Follow(protocol: Protocol, pollers: nat, workers: nat, s: State, t: State)
    requires Reachable(protocol, pollers, workers, s) && Leads(s, t)
    ensures Reachable(protocol, pollers, workers, t)
  {
    var s0 := Init(protocol, pollers, workers);
    assert Leads(s0, s);
    Chain(s0, s, t);
  }

  /** No thread outside the registry mutex holds a mutex that one inside may want; under TCP
      nobody there wants a socket mutex. */
  ghost predicate Alone(s: State) {
    && (forall p :: 0 <= p < |s.pollers| ==> !s.pollers[p].PPush?)
    && (forall w :: 0 <= w < |s.workers| ==>
          !s.workers[w].WTake? && (s.workers[w].WInSocket? ==> s.core.protocol == Tcp))
  }

  /** The state everything starts in. */
  lemma AtStart(protocol: Protocol, pollers: nat, workers: nat) returns (s: State)
    ensures && Reachable(protocol, pollers, workers, s) && Alone(s)
            && s.section == Nobody && s.acceptor == AIdle && s.closer == CIdle && s.queue == [] && s.index == 0
            && s.core == Core(protocol, [], map[], s.core.interest, map[], [], {})
            && |s.core.interest| == |s.pollers| == pollers
            && forall p :: 0 <= p < pollers ==> s.core.interest[p] == map[] && s.pollers[p] == PWait([])
  {
    s := Init(protocol, pollers, workers);
    Start(protocol, pollers, workers);
  }

  lemma WantedIsFree(s: State)
    requires Alone(s)
    requires s.section.WantSocket? || s.section.WantSocketAll? ==> s.core.protocol == Tls
    ensures MayTake(s, WantsInside(s.section))
  {
  }

  lemma SameHandler(core: Core, at: Section, ok: bool, fd: Fd, ssl: bool)
    requires Possible(core, at, ok, fd)
    ensures Effect(core, at, ok, fd, ssl).protocol == core.protocol
  {
  }

  lemma StillAlone(s: State, t: State, ok: bool, fd: Fd, ssl: bool)
    requires Alone(s) && EnabledInside(s, ok, fd) && t == NextInside(s, ok, fd, ssl)
    requires t.core.protocol == s.core.protocol
    ensures Alone(t)
  {
  }

  /** The thread inside moves, with nobody in its way. */
  lemma Move(s0: State, s: State, ok: bool, fd: Fd, ssl: bool) returns (t: State)
    requires Leads(s0, s) && Alone(s) && Possible(s.core, s.section, ok, fd)
    requires s.section.LeaveRemove? ==> s.section.p < |s.pollers|
    requires s.section.WantSocket? || s.section.WantSocketAll? ==> s.core.protocol == Tls
    ensures EnabledInside(s, ok, fd) && t == NextInside(s, ok, fd, ssl)
    ensures Leads(s0, t) && Alone(t)
  {
    WantedIsFree(s);
    assert Enabled(s, Inside(ok, fd, ssl));
    t := NextInside(s, ok, fd, ssl);
    SameHandler(s.core, s.section, ok, fd, ssl);
    StillAlone(s, t, ok, fd, ssl);
    Then(s0, s, Inside(ok, fd, ssl));
  }
}
