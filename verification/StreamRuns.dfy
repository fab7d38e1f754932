/** The calls of the TCP handler are runs of StreamMachine. */
module StreamRuns {
  import opened Bytes
  import T = TcpTransfer
  import opened StreamMachine

  ghost predicate Leads(s: State, t: State) {
    exists steps :: Legal(s, steps) && Exec(s, steps) == t
  }

  lemma Stay(s: State)
    ensures Leads(s, s)
  {
    assert Legal(s, []) && Exec(s, []) == s;
  }

  lemma Go(s: State, t: State, st: Step) returns (u: State)
    requires Leads(s, t) && Enabled(t, st)
    ensures Leads(s, u) && u == Next(t, st)
  {
    var steps :| Legal(s, steps) && Exec(s, steps) == t;
    Append(s, steps, st);
    u := Next(t, st);
  }

  // ---------------------------------------------------------------- sending

  /** `k` bytes are accepted, in one portion: the machine does not tell portions apart. */
  lemma SomeSent(s: State, i: nat, msg: seq<Byte>, k: nat) returns (t: State)
    requires i < |s.senders| && s.senders[i].Quiet? && SendFree(s) && k <= |msg|
    ensures Leads(s, t)
    ensures t == s.(senders := s.senders[i := Sending(msg, k)], accepted := s.accepted + msg[..k], wire := s.wire + msg[..k])
  {
    Stay(s);
    t := Go(s, s, CallSend(i, msg));
    assert forall l :: 0 <= l < |t.senders| && l != i ==> t.senders[l] == s.senders[l];
    t := Go(s, t, LockSend(i));
    if k > 0 {
      t := Go(s, t, SendSome(i, k));
    }
  }

  lemma SendRun(s: State, i: nat, msg: seq<Byte>, k: nat, r: int) returns (t: State)
    requires i < |s.senders| && s.senders[i].Quiet? && SendFree(s) && k <= |msg|
    requires r == |msg| <==> k == |msg|
    requires r == |msg| || r == -1 || r == 0
    ensures Leads(s, t)
    ensures t == s.(accepted := s.accepted + msg[..k], wire := s.wire + msg[..k], calls := s.calls + [SendCall(msg, k, r)])
  {
    t := SomeSent(s, i, msg, k);
    t := Go(s, t, if k == |msg| then SendDone(i) else if r == -1 then SendFail(i) else SendNothing(i));
    assert t.senders == s.senders;
  }

  /** sendData by thread `i`, while no other thread is sending. */
  method Send(socket: T.Socket, ghost s: State, i: nat, data: seq<Byte>)
    returns (r: int, ghost t: State, ghost sent: nat, ghost answers: seq<T.SendAnswer>)
    requires i < |s.senders| && s.senders[i].Quiet? && SendFree(s) && socket.outbound == s.accepted
    modifies socket`outbound, socket`sendScript
    ensures sent <= |data| && socket.outbound == old(socket.outbound) + data[..sent]
    ensures old(socket.sendScript) == answers + socket.sendScript
    ensures T.SendAnswered(answers, socket.sendScript, |data|, sent, r)
    ensures Leads(s, t)
    ensures t == s.(accepted := socket.outbound, wire := s.wire + data[..sent], calls := s.calls + [SendCall(data, sent, r)])
  {
    r, sent, answers := T.SendData(socket, data);
    t := SendRun(s, i, data, sent, r);
  }

  // ---------------------------------------------------------------- receiving

  lemma Looked(s: State, j: nat) returns (t: State)
    requires j < |s.receivers| && s.receivers[j].Silent? && ReceiveFree(s)
    ensures Leads(s, t) && t == s.(receivers := s.receivers[j := Reading([], |s.inbound|)])
  {
    Stay(s);
    t := Go(s, s, CallReceive(j));
    assert forall l :: 0 <= l < |t.receivers| && l != j ==> t.receivers[l] == s.receivers[l];
    t := Go(s, t, LockReceive(j));
    t := Go(s, t, TakeSnapshot(j));
  }

  /** Between the snapshot and the return, `arrived` comes in and `bytes` are read. */
  lemma SomeRead(s: State, j: nat, arrived: seq<Byte>, bytes: seq<Byte>) returns (t: State)
    requires j < |s.receivers| && s.receivers[j].Silent? && ReceiveFree(s)
    requires arrived <= s.wire && bytes <= s.inbound + arrived && |bytes| <= |s.inbound|
    ensures Leads(s, t)
    ensures t == s.(receivers := s.receivers[j := Reading(bytes, |s.inbound| - |bytes|)],
                    wire := s.wire[|arrived|..], inbound := (s.inbound + arrived)[|bytes|..], taken := s.taken + bytes)
  {
    var u := Looked(s, j);
    t := Go(s, u, Deliver(|arrived|));
    assert t == u.(wire := s.wire[|arrived|..], inbound := s.inbound + arrived);
    if bytes == [] {
      assert s.taken + bytes == s.taken;
      assert t.inbound[0..] == t.inbound;
    } else {
      assert t.inbound[..|bytes|] == bytes && [] + bytes == bytes;
      t := Go(s, t, ReadSome(j, |bytes|));
      assert t.receivers == s.receivers[j := Reading(bytes, |s.inbound| - |bytes|)];
    }
  }

  lemma ReceiveRun(s: State, j: nat, arrived: seq<Byte>, bytes: seq<Byte>, r: int) returns (t: State)
    requires j < |s.receivers| && s.receivers[j].Silent? && ReceiveFree(s)
    requires arrived <= s.wire && bytes <= s.inbound + arrived
    requires if r == -1 then |bytes| < |s.inbound| else r == |bytes| == |s.inbound|
    ensures Leads(s, t)
    ensures t == s.(wire := s.wire[|arrived|..], inbound := (s.inbound + arrived)[|bytes|..], taken := s.taken + bytes,
                    received := s.received + (if r == -1 then [] else bytes), receipts := s.receipts + [ReceiveCall(bytes, r)])
  {
    t := SomeRead(s, j, arrived, bytes);
    t := Go(s, t, if r == -1 then ReadFail(j) else ReadDone(j));
    assert t.receivers == s.receivers;
  }

  /** receiveData by thread `j`, while no other thread is receiving; what arrives meanwhile comes
      off the wire. */
  method Receive(socket: T.Socket, ghost s: State, j: nat, fionreadFails: bool, data: seq<Byte>)
    returns (r: T.Received, result: seq<Byte>, ghost t: State, ghost used: nat)
    requires j < |s.receivers| && s.receivers[j].Silent? && ReceiveFree(s)
    requires socket.inbound == s.inbound && socket.taken == s.taken
    modifies socket`inbound, socket`readScript, socket`taken
    ensures r == T.LengthError <==> fionreadFails
    ensures T.Follows(socket, old(socket.Stream()), old(socket.readScript), used) && old(socket.taken) <= socket.taken
    ensures var size, script := |old(socket.inbound)|, old(socket.readScript);
            r != T.LengthError ==>
              && T.ReadAnswered(size, script, used, size, r)
              && |socket.taken| == |old(socket.taken)| + T.TakenBy(size, script, used, size, r)
    ensures var arrived, bytes := socket.Stream()[|old(socket.Stream())|..], socket.taken[|old(socket.taken)|..];
            r != T.LengthError && arrived <= s.wire ==>
              && Leads(s, t) && t.inbound == socket.inbound && t.taken == socket.taken
              && t.wire == s.wire[|arrived|..] && t.senders == s.senders && t.receivers == s.receivers
              && t.calls == s.calls && t.accepted == s.accepted
              && t.receipts == s.receipts + [ReceiveCall(bytes, r.n)]
              && result == data + (if r.n == -1 then [] else bytes)
              && t.received == s.received + (if r.n == -1 then [] else bytes)
  {
    r, result, used := T.ReceiveData(socket, fionreadFails, data);
    t := s;
    ghost var arrived := socket.Stream()[|old(socket.Stream())|..];
    ghost var bytes := socket.taken[|s.taken|..];
    if r != T.LengthError && arrived <= s.wire {
      StreamSplit(s.taken, s.inbound, arrived, bytes, socket.inbound);
      t := ReceiveRun(s, j, arrived, bytes, r.n);
    }
  }

  lemma StreamSplit(taken: seq<Byte>, inbound: seq<Byte>, arrived: seq<Byte>, bytes: seq<Byte>, left: seq<Byte>)
    requires (taken + inbound) + arrived == (taken + bytes) + left
    ensures inbound + arrived == bytes + left
  {
    assert (taken + inbound) + arrived == taken + (inbound + arrived);
    assert (taken + bytes) + left == taken + (bytes + left);
    assert (taken + (inbound + arrived))[|taken|..] == (taken + (bytes + left))[|taken|..];
  }
}
