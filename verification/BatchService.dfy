/** What serving a batch of events does to connections, descriptors, map and interest sets. */
module BatchService {
  import opened ServerMachine
  import opened ServerCore
  import opened RegistryRuns

  /** A connection after its entry was served. */
  function Marked(protocol: Protocol, conn: Conn, hangup: bool): (r: Conn) {
    if hangup then conn.(kind := Closed, ssl := conn.ssl && protocol == Tcp) else conn.(kind := Data)
  }

  function TaskOf(entry: Entry): (task: Task) {
    Task(entry.c, if entry.hangup then Closed else Data)
  }

  function TasksOf(events: seq<Entry>): (tasks: seq<Task>) {
    seq(|events|, i requires 0 <= i < |events| => TaskOf(events[i]))
  }

  /** The descriptor numbers of the connections that hang up. */
  ghost function Gone(core: Core, events: seq<Entry>): (fds: set<Fd>) {
    set i | 0 <= i < |events| && events[i].hangup && events[i].c < |core.conns| :: core.conns[events[i].c].fd
  }

  /** Those among them that their handler closes. */
  ghost function Shutting(core: Core, events: seq<Entry>): (fds: set<Fd>) {
    set i | 0 <= i < |events| && events[i].hangup && events[i].c < |core.conns| && Closable(core, events[i].c)
      :: core.conns[events[i].c].fd
  }

  ghost predicate ServedConns(before: Core, now: Core, events: seq<Entry>) {
    && now.protocol == before.protocol && |now.conns| == |before.conns|
    && (forall i :: 0 <= i < |events| ==>
          events[i].c < |now.conns|
          && now.conns[events[i].c] == Marked(before.protocol, before.conns[events[i].c], events[i].hangup))
    && (forall c :: 0 <= c < |now.conns| && !InBatch(events, c) ==> now.conns[c] == before.conns[c])
  }

  ghost predicate ServedMaps(before: Core, now: Core, p: PollerId, events: seq<Entry>) {
    && now.store == before.store - Gone(before, events)
    && now.open == before.open - Shutting(before, events)
    && |now.interest| == |before.interest|
    && (forall j :: 0 <= j < |now.interest| ==>
          now.interest[j] == if j == p then before.interest[j] - Gone(before, events) else before.interest[j])
    && now.inserted == before.inserted
  }

  /** `now` is `before` with all of `events` served at poller `p`, and nothing else. */
  ghost predicate Served(before: Core, now: Core, p: PollerId, events: seq<Entry>) {
    ServedConns(before, now, events) && ServedMaps(before, now, p, events)
  }

  function ServeEntry(core: Core, entry: Entry, p: PollerId): (t: Core)
    requires entry.c < |core.conns| && p < |core.interest|
  {
    if entry.hangup then Removed(core, entry.c, p)
    else SetConn(core, entry.c, core.conns[entry.c].(kind := Data))
  }

  /** The part of the first entry that concerns descriptor numbers. */
  lemma GoneNext(before: Core, events: seq<Entry>, entry: Entry)
    requires entry.c < |before.conns|
    ensures Gone(before, events + [entry]) ==
              Gone(before, events) + if entry.hangup then {before.conns[entry.c].fd} else {}
    ensures Shutting(before, events + [entry]) ==
              Shutting(before, events) + if entry.hangup && Closable(before, entry.c) then {before.conns[entry.c].fd} else {}
  {
    var more := events + [entry];
    assert more[|events|] == entry;
    forall fd ensures fd in Gone(before, events) ==> fd in Gone(before, more)
              ensures fd in Shutting(before, events) ==> fd in Shutting(before, more) {
      if fd in Gone(before, events) {
        var i :| 0 <= i < |events| && events[i].hangup && events[i].c < |before.conns| && before.conns[events[i].c].fd == fd;
        assert more[i] == events[i];
      }
      if fd in Shutting(before, events) {
        var i :| 0 <= i < |events| && events[i].hangup && events[i].c < |before.conns| && Closable(before, events[i].c)
          && before.conns[events[i].c].fd == fd;
        assert more[i] == events[i];
      }
    }
  }

  lemma ServedNextConns(before: Core, now: Core, next: Core, events: seq<Entry>, entry: Entry)
    requires ServedConns(before, now, events) && !InBatch(events, entry.c) && entry.c < |now.conns|
    requires next.protocol == now.protocol
    requires next.conns == now.conns[entry.c := Marked(now.protocol, now.conns[entry.c], entry.hangup)]
    ensures ServedConns(before, next, events + [entry])
  {
    var more := events + [entry];
    assert more[|events|] == entry;
    forall c | InBatch(events, c) ensures InBatch(more, c) {
      var i :| 0 <= i < |events| && events[i].c == c;
      assert more[i].c == c;
    }
    forall i | 0 <= i < |more|
      ensures next.conns[more[i].c] == Marked(before.protocol, before.conns[more[i].c], more[i].hangup)
    {
      if i < |events| {
        assert more[i] == events[i];
      }
    }
  }

  /** `next` is `now` with one entry served: what leaves the maps is `gone` and `shut`. */
  ghost predicate OneServed(now: Core, next: Core, entry: Entry, p: PollerId, gone: set<Fd>, shut: set<Fd>)
    requires entry.c < |now.conns|
  {
    && next.protocol == now.protocol && next.inserted == now.inserted
    && next.conns == now.conns[entry.c := Marked(now.protocol, now.conns[entry.c], entry.hangup)]
    && next.store == now.store - gone && next.open == now.open - shut
    && |next.interest| == |now.interest|
    && (forall j :: 0 <= j < |now.interest| ==>
          next.interest[j] == if j == p then now.interest[j] - gone else now.interest[j])
  }

  lemma EntryServed(core: Core, entry: Entry, p: PollerId)
    requires CoreInv(core, Nobody) && p < |core.interest| && Listed(core, p, entry.c) && Stored(core, entry.c)
    ensures OneServed(core, ServeEntry(core, entry, p), entry, p,
                      if entry.hangup then {core.conns[entry.c].fd} else {},
                      if entry.hangup && Closable(core, entry.c) then {core.conns[entry.c].fd} else {})
  {
    if entry.hangup {
      RemovedFacts(core, entry.c, p);
    }
  }

  lemma ServedNextMaps(before: Core, now: Core, next: Core, p: PollerId, events: seq<Entry>, entry: Entry)
    requires Served(before, now, p, events) && !InBatch(events, entry.c) && entry.c < |now.conns|
    requires OneServed(now, next, entry, p,
                       if entry.hangup then {now.conns[entry.c].fd} else {},
                       if entry.hangup && Closable(now, entry.c) then {now.conns[entry.c].fd} else {})
    ensures ServedMaps(before, next, p, events + [entry])
  {
    GoneNext(before, events, entry);
    assert now.conns[entry.c] == before.conns[entry.c];
  }

  lemma ServedNext(before: Core, now: Core, p: PollerId, events: seq<Entry>, entry: Entry)
    requires Served(before, now, p, events) && !InBatch(events, entry.c)
    requires CoreInv(now, Nobody) && p < |now.interest| && Listed(now, p, entry.c) && Stored(now, entry.c)
    ensures Served(before, ServeEntry(now, entry, p), p, events + [entry])
  {
    var next := ServeEntry(now, entry, p);
    EntryServed(now, entry, p);
    ServedNextMaps(before, now, next, p, events, entry);
    ServedNextConns(before, now, next, events, entry);
  }

  lemma ServedNone(core: Core, p: PollerId)
    ensures Served(core, core, p, [])
  {
    assert Gone(core, []) == {} && Shutting(core, []) == {};
  }
}
