/** The pollers' interest sets and their round-robin assignment. */
module EventScheduler {
  import opened Common
  import opened ServerMachine

  /** One poller: its interest set, and how many sockets it has been offered. */
  class SocketEventHandler {
    var interest: map<Fd, ConnId>
    ghost var offered: nat

    constructor ()
      ensures interest == map[] && offered == 0
    {
      interest, offered := map[], 0;
    }

    /** epoll_ctl ADD, which may fail. */
    method AddSocket(fd: Fd, c: ConnId, succeeds: bool) returns (added: bool)
      modifies this
      ensures added == succeeds && offered == old(offered) + 1
      ensures interest == if succeeds then old(interest)[fd := c] else old(interest)
    {
      offered := offered + 1;
      if succeeds {
        interest := interest[fd := c];
      }
      added := succeeds;
    }

    /** epoll_ctl DEL. */
    method RemoveSocket(fd: Fd) returns (removed: bool)
      modifies this`interest
      ensures removed == (fd in old(interest)) && interest == old(interest) - {fd}
    {
      removed := fd in interest;
      interest := interest - {fd};
    }
  }

  /** How often `j` occurs. */
  function Occurrences(s: seq<nat>, j: nat): (n: nat) {
    if s == [] then 0 else Occurrences(s[..|s| - 1], j) + if s[|s| - 1] == j then 1 else 0
  }

  /** Call t (counting from 1) goes to poller t mod n. */
  ghost predicate RoundRobin(turns: seq<nat>, n: nat)
    requires n > 0
  {
    forall t :: 0 <= t < |turns| ==> turns[t] == (t + 1) % n
  }

  /** After k calls poller j has got one call for each t in 1..k congruent to j modulo n. */
  lemma {:induction false} ShareOf(turns: seq<nat>, n: nat, j: nat)
    requires n > 0 && j < n && RoundRobin(turns, n)
    ensures Occurrences(turns, j) == |turns| / n + if 0 < j <= |turns| % n then 1 else 0
  {
    if turns == [] {
      Quotient(0, n, 0, 0);
    } else {
      var k := |turns| - 1;
      assert turns[k] == (k + 1) % n;
      ShareOf(turns[..k], n, j);
      NextQuotient(k, n);
      NextShare(k / n, k % n, (k + 1) / n, (k + 1) % n, n, j);
    }
  }

  /** Going from call k to call k + 1, given their quotients and remainders. */
  lemma NextShare(q: nat, r: nat, q1: nat, r1: nat, n: nat, j: nat)
    requires r < n && j < n
    requires if r == n - 1 then q1 == q + 1 && r1 == 0 else q1 == q && r1 == r + 1
    ensures (q + if 0 < j <= r then 1 else 0) + (if r1 == j then 1 else 0) == q1 + if 0 < j <= r1 then 1 else 0
  {
  }

  lemma NextQuotient(k: nat, n: nat)
    requires n > 0
    ensures if k % n == n - 1 then (k + 1) / n == k / n + 1 && (k + 1) % n == 0
            else (k + 1) / n == k / n && (k + 1) % n == k % n + 1
  {
    var q, r := k / n, k % n;
    assert k == q * n + r;
    if r == n - 1 {
      assert k + 1 == (q + 1) * n;
      Quotient(k + 1, n, q + 1, 0);
    } else {
      assert k + 1 == q * n + (r + 1);
      Quotient(k + 1, n, q, r + 1);
    }
  }

  lemma Quotient(k: nat, n: nat, q: nat, r: nat)
    requires n > 0 && r < n && k == q * n + r
    ensures k / n == q && k % n == r
  {
    var d := k / n - q;
    assert k == (k / n) * n + k % n;
    assert d * n == r - k % n;
    Multiple(d, n);
  }

  lemma Multiple(d: int, n: int)
    requires n > 0
    ensures d > 0 ==> d * n >= n
    ensures d < 0 ==> d * n <= -n
  {
  }

  /** One more turn. */
  lemma TakeTurn(turns: seq<nat>, n: nat)
    requires n > 0 && RoundRobin(turns, n)
    ensures var next := (|turns| % n + 1) % n;
            && next < n && next == (|turns| + 1) % n && RoundRobin(turns + [next], n)
            && (forall j: nat :: Occurrences(turns + [next], j) == Occurrences(turns, j) + if j == next then 1 else 0)
  {
    NextQuotient(|turns|, n);
    var next := (|turns| % n + 1) % n;
    var more := turns + [next];
    assert more[..|more| - 1] == turns;
    assert next == (|turns| + 1) % n by { TurnOf(|turns|, n); }
  }

  lemma TurnOf(k: nat, n: nat)
    requires n > 0
    ensures (k % n + 1) % n == (k + 1) % n
  {
    NextQuotient(k, n);
    if k % n == n - 1 {
      Quotient(n, n, 1, 0);
    } else {
      Quotient(k % n + 1, n, 0, k % n + 1);
    }
  }

  /** Any two pollers' shares differ by at most one. */
  lemma SharesBalanced(turns: seq<nat>, n: nat, i: nat, j: nat)
    requires n > 0 && i < n && j < n && RoundRobin(turns, n)
    ensures -1 <= Occurrences(turns, i) - Occurrences(turns, j) <= 1
  {
    ShareOf(turns, n, i);
    ShareOf(turns, n, j);
  }

  class EventScheduler {
    const handlers: seq<SocketEventHandler>
    var currentIndex: nat
    ghost var turns: seq<nat>

    /** The calls so far went round, and each poller was offered its share. */
    ghost predicate Valid()
      reads this, handlers
    {
      && |handlers| > 0
      && (forall i, j :: 0 <= i < j < |handlers| ==> handlers[i] != handlers[j])
      && RoundRobin(turns, |handlers|)
      && currentIndex == |turns| % |handlers|
      && (forall j :: 0 <= j < |handlers| ==> handlers[j].offered == Occurrences(turns, j))
    }

    /** The pollers' interest sets. */
    ghost function Interests(): (s: seq<map<Fd, ConnId>>)
      reads handlers
      ensures |s| == |handlers| && forall j :: 0 <= j < |s| ==> s[j] == handlers[j].interest
    {
      seq(|handlers|, j requires 0 <= j < |handlers| reads handlers => handlers[j].interest)
    }

    constructor (numThreads: nat)
      requires numThreads > 0
      ensures Valid() && |handlers| == numThreads && turns == []
      ensures forall j :: 0 <= j < numThreads ==> fresh(handlers[j]) && handlers[j].interest == map[]
    {
      var made: seq<SocketEventHandler> := [];
      for i := 0 to numThreads
        invariant |made| == i
        invariant forall j :: 0 <= j < i ==> fresh(made[j]) && made[j].interest == map[] && made[j].offered == 0
        invariant forall j, k :: 0 <= j < k < i ==> made[j] != made[k]
      {
        var handler := new SocketEventHandler();
        made := made + [handler];
      }
      handlers := made;
      currentIndex, turns := 0, [];
    }

    /** The next poller in turn gets the socket, whether or not epoll accepts it. */
    method AddSocket(fd: Fd, c: ConnId, succeeds: bool) returns (added: bool)
      requires Valid()
      modifies this, handlers
      ensures Valid() && added == succeeds
      ensures currentIndex == (old(currentIndex) + 1) % |handlers|
      ensures turns == old(turns) + [currentIndex]
      ensures forall j :: 0 <= j < |handlers| ==>
                handlers[j].interest ==
                  if j == currentIndex && succeeds then old(handlers[j].interest)[fd := c] else old(handlers[j].interest)
    {
      TakeTurn(turns, |handlers|);
      currentIndex := (currentIndex + 1) % |handlers|;
      added := handlers[currentIndex].AddSocket(fd, c, succeeds);
      turns := turns + [currentIndex];
    }

    /** The kernel's part of close: the descriptor leaves every interest set. */
    method Forget(fd: Fd)
      requires Valid()
      modifies handlers
      ensures Valid()
      ensures forall j :: 0 <= j < |handlers| ==> handlers[j].interest == old(handlers[j].interest) - {fd}
    {
      forall j | 0 <= j < |handlers| {
        handlers[j].interest := handlers[j].interest - {fd};
      }
    }

    /** removeSocket at poller `j`. */
    method RemoveSocket(j: nat, fd: Fd) returns (removed: bool)
      requires Valid() && j < |handlers|
      modifies handlers
      ensures Valid() && removed == (fd in old(handlers[j].interest))
      ensures forall i :: 0 <= i < |handlers| ==>
                handlers[i].interest == if i == j then old(handlers[i].interest) - {fd} else old(handlers[i].interest)
    {
      removed := handlers[j].RemoveSocket(fd);
    }
  }
}
