/**
  One TCP connection end to end, as a transition system: any number of threads call sendData at
  one end, a FIFO channel moves bytes in arbitrary portions, and any number of threads call
  receiveData at the other end.  One step is one lock, one system call or one return; each end
  has its own socket mutex.
*/
module StreamMachine {
  import opened Bytes

  datatype SenderPc =
    | Quiet
    | WantSend(msg: seq<Byte>)
    | Sending(msg: seq<Byte>, sent: nat)  // holds the mutex

  datatype ReceiverPc =
    | Silent
    | WantReceive
    | Snapshot  // holds the mutex, before FIONREAD
    | Reading(buffer: seq<Byte>, left: nat)  // holds the mutex

  /** A finished call of sendData: how much the kernel accepted, and what was returned. */
  datatype SendCall = SendCall(msg: seq<Byte>, accepted: nat, returned: int)

  /** A finished call of receiveData: what it had got from read(), and what was returned. */
  datatype ReceiveCall = ReceiveCall(bytes: seq<Byte>, returned: int)

  /** `calls` and `receipts` are the finished sends and receives in the order in which they held
      the mutex; `accepted` is everything the kernel accepted, `wire` what it has not delivered
      yet, `inbound` what is buffered at the other end, `taken` what read() has handed out there,
      and `received` what the receive calls have appended to the callers' data. */
  datatype State = State(
    senders: seq<SenderPc>,
    receivers: seq<ReceiverPc>,
    calls: seq<SendCall>,
    accepted: seq<Byte>,
    wire: seq<Byte>,
    inbound: seq<Byte>,
    taken: seq<Byte>,
    received: seq<Byte>,
    receipts: seq<ReceiveCall>)

  datatype Step =
    | CallSend(i: nat, msg: seq<Byte>)
    | LockSend(i: nat)
    | SendSome(i: nat, n: nat)
    | SendNothing(i: nat)  // send() returned 0
    | SendFail(i: nat)
    | SendDone(i: nat)
    | Deliver(n: nat)
    | CallReceive(j: nat)
    | LockReceive(j: nat)
    | TakeSnapshot(j: nat)
    | ReadSome(j: nat, n: nat)
    | ReadFail(j: nat)
    | ReadDone(j: nat)

  function Init(senders: nat, receivers: nat): (t: State) {
    State(seq(senders, _ => Quiet), seq(receivers, _ => Silent), [], [], [], [], [], [], [])
  }

  ghost predicate SendFree(s: State) {
    forall i :: 0 <= i < |s.senders| ==> !s.senders[i].Sending?
  }

  predicate HoldsReceive(pc: ReceiverPc) {
    pc.Snapshot? || pc.Reading?
  }

  ghost predicate ReceiveFree(s: State) {
    forall j :: 0 <= j < |s.receivers| ==> !HoldsReceive(s.receivers[j])
  }

  /** Interruptions and would-block answers change nothing, so they are no steps; a loop that
      ends early is `ReadDone`. */
  ghost predicate Enabled(s: State, st: Step) {
    match st
    case CallSend(i, _) => i < |s.senders| && s.senders[i].Quiet?
    case LockSend(i) => i < |s.senders| && s.senders[i].WantSend? && SendFree(s)
    case SendSome(i, n) => i < |s.senders| && s.senders[i].Sending? && 0 < n && s.senders[i].sent + n <= |s.senders[i].msg|
    case SendNothing(i) => i < |s.senders| && s.senders[i].Sending? && s.senders[i].sent < |s.senders[i].msg|
    case SendFail(i) => i < |s.senders| && s.senders[i].Sending? && s.senders[i].sent < |s.senders[i].msg|
    case SendDone(i) => i < |s.senders| && s.senders[i].Sending? && s.senders[i].sent >= |s.senders[i].msg|
    case Deliver(n) => n <= |s.wire|
    case CallReceive(j) => j < |s.receivers| && s.receivers[j].Silent?
    case LockReceive(j) => j < |s.receivers| && s.receivers[j].WantReceive? && ReceiveFree(s)
    case TakeSnapshot(j) => j < |s.receivers| && s.receivers[j].Snapshot?
    case ReadSome(j, n) => j < |s.receivers| && s.receivers[j].Reading? && 0 < n <= s.receivers[j].left && n <= |s.inbound|
    case ReadFail(j) => j < |s.receivers| && s.receivers[j].Reading? && s.receivers[j].left > 0
    case ReadDone(j) => j < |s.receivers| && s.receivers[j].Reading? && (s.receivers[j].left == 0 || s.inbound == [])
  }

  function SetSender(s: State, i: nat, pc: SenderPc): (t: State)
    requires i < |s.senders|
  {
    s.(senders := s.senders[i := pc])
  }

  function SetReceiver(s: State, j: nat, pc: ReceiverPc): (t: State)
    requires j < |s.receivers|
  {
    s.(receivers := s.receivers[j := pc])
  }

  function Return(s: State, i: nat, returned: int): (t: State)
    requires i < |s.senders| && s.senders[i].Sending?
  {
    SetSender(s, i, Quiet).(calls := s.calls + [SendCall(s.senders[i].msg, s.senders[i].sent, returned)])
  }

  function Next(s: State, st: Step): (t: State)
    requires Enabled(s, st)
  {
    match st
    case CallSend(i, msg) => SetSender(s, i, WantSend(msg))
    case LockSend(i) => SetSender(s, i, Sending(s.senders[i].msg, 0))
    case SendSome(i, n) =>
      var pc := s.senders[i];
      var portion := pc.msg[pc.sent..pc.sent + n];
      SetSender(s, i, Sending(pc.msg, pc.sent + n)).(accepted := s.accepted + portion, wire := s.wire + portion)
    case SendNothing(i) => Return(s, i, 0)
    case SendFail(i) => Return(s, i, -1)
    case SendDone(i) => Return(s, i, s.senders[i].sent)
    case Deliver(n) => s.(inbound := s.inbound + s.wire[..n], wire := s.wire[n..])
    case CallReceive(j) => SetReceiver(s, j, WantReceive)
    case LockReceive(j) => SetReceiver(s, j, Snapshot)
    case TakeSnapshot(j) => SetReceiver(s, j, Reading([], |s.inbound|))
    case ReadSome(j, n) =>
      var pc := s.receivers[j];
      SetReceiver(s, j, Reading(pc.buffer + s.inbound[..n], pc.left - n)).(
        taken := s.taken + s.inbound[..n], inbound := s.inbound[n..])
    case ReadFail(j) =>
      SetReceiver(s, j, Silent).(receipts := s.receipts + [ReceiveCall(s.receivers[j].buffer, -1)])
    case ReadDone(j) =>
      var buffer := s.receivers[j].buffer;
      SetReceiver(s, j, Silent).(
        received := s.received + buffer, receipts := s.receipts + [ReceiveCall(buffer, |buffer|)])
  }

  ghost predicate Legal(s: State, steps: seq<Step>)
    decreases |steps|
  {
    steps == [] || (Enabled(s, steps[0]) && Legal(Next(s, steps[0]), steps[1..]))
  }

  function Exec(s: State, steps: seq<Step>): (t: State)
    requires Legal(s, steps)
    decreases |steps|
  {
    if steps == [] then s else Exec(Next(s, steps[0]), steps[1..])
  }

  ghost predicate Reachable(senders: nat, receivers: nat, s: State) {
    exists steps :: Legal(Init(senders, receivers), steps) && Exec(Init(senders, receivers), steps) == s
  }

  // ---------------------------------------------------------------- invariants

  ghost predicate MutexInv(s: State) {
    && (forall i, k :: 0 <= i < k < |s.senders| && s.senders[i].Sending? ==> !s.senders[k].Sending?)
    && (forall j, k :: 0 <= j < k < |s.receivers| && HoldsReceive(s.receivers[j]) ==> !HoldsReceive(s.receivers[k]))
  }

  /** The accepted prefixes of finished calls, one after the other. */
  function Prefixes(calls: seq<SendCall>): (r: seq<Byte>)
    requires forall k :: 0 <= k < |calls| ==> calls[k].accepted <= |calls[k].msg|
  {
    if calls == [] then []
    else
      var last := calls[|calls| - 1];
      Prefixes(calls[..|calls| - 1]) + last.msg[..last.accepted]
  }

  ghost predicate CallsInv(s: State) {
    && (forall k :: 0 <= k < |s.calls| ==>
          && s.calls[k].accepted <= |s.calls[k].msg|
          && (s.calls[k].returned == |s.calls[k].msg| <==> s.calls[k].accepted == |s.calls[k].msg|)
          && (s.calls[k].returned == -1 || s.calls[k].returned == 0 || s.calls[k].returned == |s.calls[k].msg|))
    && (forall i :: 0 <= i < |s.senders| && s.senders[i].Sending? ==> s.senders[i].sent <= |s.senders[i].msg|)
  }

  /** Finished prefixes in lock order, then what the current sender has got accepted. */
  ghost predicate SentInv(s: State)
    requires CallsInv(s)
  {
    && (SendFree(s) ==> s.accepted == Prefixes(s.calls))
    && (forall i :: 0 <= i < |s.senders| && s.senders[i].Sending? ==>
          s.accepted == Prefixes(s.calls) + s.senders[i].msg[..s.senders[i].sent])
  }

  ghost predicate ChannelInv(s: State) {
    s.accepted == s.taken + s.inbound + s.wire
  }

  /** What the calls had read, one after the other. */
  function ReadBy(receipts: seq<ReceiveCall>): (r: seq<Byte>) {
    if receipts == [] then [] else ReadBy(receipts[..|receipts| - 1]) + receipts[|receipts| - 1].bytes
  }

  /** The same without the failed calls. */
  function KeptBy(receipts: seq<ReceiveCall>): (r: seq<Byte>) {
    if receipts == [] then []
    else
      var last := receipts[|receipts| - 1];
      KeptBy(receipts[..|receipts| - 1]) + if last.returned == -1 then [] else last.bytes
  }

  /** Everything read is what the finished calls had read and then the current reader's buffer;
      everything received is what the successful calls had read. */
  ghost predicate ReceivedInv(s: State) {
    && s.received == KeptBy(s.receipts)
    && (ReceiveFree(s) ==> s.taken == ReadBy(s.receipts))
    && (forall j :: 0 <= j < |s.receivers| && HoldsReceive(s.receivers[j]) ==>
          s.taken == ReadBy(s.receipts) + BufferOf(s.receivers[j]))
    && (forall k :: 0 <= k < |s.receipts| ==>
          s.receipts[k].returned == -1 || s.receipts[k].returned == |s.receipts[k].bytes|)
  }

  function BufferOf(pc: ReceiverPc): (r: seq<Byte>) {
    if pc.Reading? then pc.buffer else []
  }

  ghost predicate Inv(s: State) {
    MutexInv(s) && CallsInv(s) && SentInv(s) && ChannelInv(s) && ReceivedInv(s)
  }

  lemma MutexStep(s: State, st: Step)
    requires MutexInv(s) && Enabled(s, st)
    ensures MutexInv(Next(s, st))
  {
  }

  lemma CallsStep(s: State, st: Step)
    requires CallsInv(s) && Enabled(s, st)
    ensures CallsInv(Next(s, st))
  {
  }

  /** The sender at work gets one more portion accepted. */
  lemma SendSomeStep(s: State, i: nat, n: nat)
    requires MutexInv(s) && CallsInv(s) && SentInv(s) && Enabled(s, SendSome(i, n)) && CallsInv(Next(s, SendSome(i, n)))
    ensures SentInv(Next(s, SendSome(i, n)))
  {
    var t := Next(s, SendSome(i, n));
    var pc := s.senders[i];
    assert s.accepted == Prefixes(s.calls) + pc.msg[..pc.sent];
    assert pc.msg[..pc.sent] + pc.msg[pc.sent..pc.sent + n] == pc.msg[..pc.sent + n];
    assert t.accepted == Prefixes(s.calls) + pc.msg[..pc.sent + n];
    assert t.senders[i] == Sending(pc.msg, pc.sent + n);
    assert forall k :: 0 <= k < |s.senders| && k != i ==> t.senders[k] == s.senders[k] && !s.senders[k].Sending?;
  }

  /** A call returns: its accepted part joins those of the finished calls. */
  lemma ReturnStep(s: State, st: Step)
    requires MutexInv(s) && CallsInv(s) && SentInv(s) && Enabled(s, st) && CallsInv(Next(s, st))
    requires st.SendNothing? || st.SendFail? || st.SendDone?
    ensures SentInv(Next(s, st))
  {
    var t := Next(s, st);
    var pc := s.senders[st.i];
    assert s.accepted == Prefixes(s.calls) + pc.msg[..pc.sent];
    assert t.calls[..|t.calls| - 1] == s.calls;
    assert t.calls[|t.calls| - 1].msg == pc.msg && t.calls[|t.calls| - 1].accepted == pc.sent;
    assert t.accepted == Prefixes(t.calls);
    assert forall k :: 0 <= k < |s.senders| ==> !t.senders[k].Sending?;
  }

  lemma SentStep(s: State, st: Step)
    requires MutexInv(s) && CallsInv(s) && SentInv(s) && Enabled(s, st) && CallsInv(Next(s, st))
    ensures SentInv(Next(s, st))
  {
    var t := Next(s, st);
    if st.SendSome? {
      SendSomeStep(s, st.i, st.n);
    } else if st.SendNothing? || st.SendFail? || st.SendDone? {
      ReturnStep(s, st);
    } else {
      assert t.calls == s.calls && t.accepted == s.accepted;
      if SendFree(t) {
        forall k | 0 <= k < |s.senders| ensures !s.senders[k].Sending? {
          assert !t.senders[k].Sending?;
        }
      }
    }
  }

  lemma ChannelStep(s: State, st: Step)
    requires ChannelInv(s) && Enabled(s, st)
    ensures ChannelInv(Next(s, st))
  {
    if st.Deliver? {
      assert s.wire == s.wire[..st.n] + s.wire[st.n..];
    } else if st.ReadSome? {
      assert s.inbound == s.inbound[..st.n] + s.inbound[st.n..];
    }
  }

  /** The reader at work gets one more portion. */
  lemma ReadSomeStep(s: State, j: nat, n: nat)
    requires MutexInv(s) && ReceivedInv(s) && Enabled(s, ReadSome(j, n))
    ensures ReceivedInv(Next(s, ReadSome(j, n)))
  {
    var t := Next(s, ReadSome(j, n));
    var buffer := s.receivers[j].buffer;
    assert s.taken == ReadBy(s.receipts) + buffer;
    assert ReadBy(s.receipts) + buffer + s.inbound[..n] == ReadBy(s.receipts) + (buffer + s.inbound[..n]);
    assert HoldsReceive(t.receivers[j]);
    assert forall k :: 0 <= k < |s.receivers| && k != j ==> t.receivers[k] == s.receivers[k] && !HoldsReceive(s.receivers[k]);
  }

  /** A receive call returns, and its entry joins the log. */
  lemma ReceiptStep(s: State, st: Step)
    requires MutexInv(s) && ReceivedInv(s) && Enabled(s, st) && (st.ReadFail? || st.ReadDone?)
    ensures ReceivedInv(Next(s, st))
  {
    SoleReader(s, st.j);
    var buffer := s.receivers[st.j].buffer;
    LogReceipt(s, Next(s, st), st.j, ReceiveCall(buffer, if st.ReadFail? then -1 else |buffer|));
  }

  lemma SoleReader(s: State, j: nat)
    requires MutexInv(s) && ReceivedInv(s) && j < |s.receivers| && HoldsReceive(s.receivers[j])
    ensures s.taken == ReadBy(s.receipts) + BufferOf(s.receivers[j])
    ensures forall k :: 0 <= k < |s.receivers| && k != j ==> !HoldsReceive(s.receivers[k])
  {
  }

  lemma LogReceipt(s: State, t: State, j: nat, call: ReceiveCall)
    requires s.received == KeptBy(s.receipts) && s.taken == ReadBy(s.receipts) + call.bytes && t.taken == s.taken
    requires forall k :: 0 <= k < |s.receipts| ==> s.receipts[k].returned == -1 || s.receipts[k].returned == |s.receipts[k].bytes|
    requires call.returned == -1 || call.returned == |call.bytes|
    requires t.receipts == s.receipts + [call]
    requires t.received == s.received + if call.returned == -1 then [] else call.bytes
    requires j < |s.receivers| && t.receivers == s.receivers[j := Silent]
    requires forall k :: 0 <= k < |s.receivers| && k != j ==> !HoldsReceive(s.receivers[k])
    ensures ReceivedInv(t)
  {
    assert t.receipts[..|t.receipts| - 1] == s.receipts;
    assert t.received == KeptBy(t.receipts);
  }

  lemma ReceivedStep(s: State, st: Step)
    requires MutexInv(s) && ReceivedInv(s) && Enabled(s, st)
    ensures ReceivedInv(Next(s, st))
  {
    var t := Next(s, st);
    if st.ReadSome? {
      ReadSomeStep(s, st.j, st.n);
    } else if st.ReadFail? || st.ReadDone? {
      ReceiptStep(s, st);
    } else {
      assert t.taken == s.taken && t.receipts == s.receipts && t.received == s.received;
      if ReceiveFree(t) {
        forall k | 0 <= k < |s.receivers| ensures !HoldsReceive(s.receivers[k]) {
          assert !HoldsReceive(t.receivers[k]);
        }
      }
    }
  }

  lemma InvStep(s: State, st: Step)
    requires Inv(s) && Enabled(s, st)
    ensures Inv(Next(s, st))
  {
    MutexStep(s, st);
    CallsStep(s, st);
    SentStep(s, st);
    ChannelStep(s, st);
    ReceivedStep(s, st);
  }

  lemma {:induction false} InvRun(s: State, steps: seq<Step>)
    requires Inv(s) && Legal(s, steps)
    ensures Inv(Exec(s, steps))
    decreases |steps|
  {
    if steps == [] {
    } else {
      var t := Next(s, steps[0]);
      InvStep(s, steps[0]);
      InvRun(t, steps[1..]);
    }
  }

  lemma ReachableInv(senders: nat, receivers: nat, s: State)
    requires Reachable(senders, receivers, s)
    ensures Inv(s)
  {
    var steps :| Legal(Init(senders, receivers), steps) && Exec(Init(senders, receivers), steps) == s;
    InvRun(Init(senders, receivers), steps);
  }

  // ---------------------------------------------------------------- theorems

  /** Send atomicity: whatever threads send at the same time, the bytes the kernel accepts are
      one contiguous prefix per call, in lock order, the whole message exactly when the call
      returned its full length. */
  lemma SendAtomicity(senders: nat, receivers: nat, s: State)
    requires Reachable(senders, receivers, s)
    ensures forall k :: 0 <= k < |s.calls| ==>
              && s.calls[k].accepted <= |s.calls[k].msg|
              && (s.calls[k].returned == |s.calls[k].msg| <==> s.calls[k].accepted == |s.calls[k].msg|)
    ensures exists partial ::
              && s.accepted == Prefixes(s.calls) + partial
              && (SendFree(s) ==> partial == [])
              && (forall i :: 0 <= i < |s.senders| && s.senders[i].Sending? ==> partial <= s.senders[i].msg)
  {
    ReachableInv(senders, receivers, s);
    if i :| 0 <= i < |s.senders| && s.senders[i].Sending? {
      var partial := s.senders[i].msg[..s.senders[i].sent];
      assert s.accepted == Prefixes(s.calls) + partial;
      assert forall k :: 0 <= k < |s.senders| && s.senders[k].Sending? ==> k == i;
    } else {
      assert s.accepted == Prefixes(s.calls) + [];
    }
  }

  /** No failed call among these had read anything. */
  ghost predicate LostNothing(receipts: seq<ReceiveCall>) {
    forall k :: 0 <= k < |receipts| && receipts[k].returned == -1 ==> receipts[k].bytes == []
  }

  /** Nothing is missing from what was kept if and only if failed calls had read nothing. */
  lemma {:induction false} KeptIff(receipts: seq<ReceiveCall>)
    ensures |KeptBy(receipts)| <= |ReadBy(receipts)|
    ensures LostNothing(receipts) ==> KeptBy(receipts) == ReadBy(receipts)
    ensures |KeptBy(receipts)| == |ReadBy(receipts)| ==> LostNothing(receipts)
  {
    if receipts == [] {
    } else {
      var before := receipts[..|receipts| - 1];
      KeptIff(before);
      assert receipts == before + [receipts[|receipts| - 1]];
    }
  }

  /** What calls had read or kept is the beginning of what more calls had. */
  lemma {:induction false} EarlierCalls(receipts: seq<ReceiveCall>, k: nat)
    requires k < |receipts|
    ensures ReadBy(receipts[..k]) + receipts[k].bytes <= ReadBy(receipts)
    ensures receipts[k].returned != -1 ==> KeptBy(receipts[..k]) + receipts[k].bytes <= KeptBy(receipts)
  {
    var before := receipts[..|receipts| - 1];
    if k == |receipts| - 1 {
    } else {
      EarlierCalls(before, k);
      assert before[..k] == receipts[..k];
    }
  }

  lemma TakenIsAccepted(senders: nat, receivers: nat, s: State)
    requires Reachable(senders, receivers, s)
    ensures ReadBy(s.receipts) <= s.taken <= s.accepted && s.received == KeptBy(s.receipts)
    ensures ReceiveFree(s) ==> s.taken == ReadBy(s.receipts)
    ensures forall j :: 0 <= j < |s.receivers| && HoldsReceive(s.receivers[j]) ==>
              s.taken == ReadBy(s.receipts) + BufferOf(s.receivers[j])
  {
    ReachableInv(senders, receivers, s);
    assert s.accepted == s.taken + (s.inbound + s.wire);
    if j :| 0 <= j < |s.receivers| && HoldsReceive(s.receivers[j]) {
      assert s.taken == ReadBy(s.receipts) + BufferOf(s.receivers[j]);
    }
  }

  /**
    Where the bytes of a finished receive call come from and where they end up: they are the next
    bytes of the sent stream behind those of all earlier calls, failed ones included, and they
    were appended behind those of the earlier successful calls.  The two places are the same if
    and only if no earlier failed call had read anything.
  */
  lemma ReceivedInPlaceIff(senders: nat, receivers: nat, s: State, k: nat)
    requires Reachable(senders, receivers, s) && k < |s.receipts|
    ensures var from, bytes := |ReadBy(s.receipts[..k])|, s.receipts[k].bytes;
            from + |bytes| <= |s.accepted| && s.accepted[from..from + |bytes|] == bytes
    ensures var to, bytes := |KeptBy(s.receipts[..k])|, s.receipts[k].bytes;
            s.receipts[k].returned != -1 ==> to + |bytes| <= |s.received| && s.received[to..to + |bytes|] == bytes
    ensures |ReadBy(s.receipts[..k])| == |KeptBy(s.receipts[..k])| <==> LostNothing(s.receipts[..k])
  {
    TakenIsAccepted(senders, receivers, s);
    EarlierCalls(s.receipts, k);
    KeptIff(s.receipts[..k]);
    Slice(ReadBy(s.receipts[..k]), s.receipts[k].bytes, s.accepted);
    if s.receipts[k].returned != -1 {
      Slice(KeptBy(s.receipts[..k]), s.receipts[k].bytes, s.received);
    }
  }

  lemma Slice(a: seq<Byte>, b: seq<Byte>, all: seq<Byte>)
    requires a + b <= all
    ensures all[|a|..|a| + |b|] == b
  {
    assert all[|a|..|a| + |b|] == (a + b)[|a|..];
  }

  /** End to end: as long as no failed receive call had read anything, what the receive calls
      appended is a prefix of what was accepted for sending. */
  lemma EndToEnd(senders: nat, receivers: nat, s: State)
    requires Reachable(senders, receivers, s) && LostNothing(s.receipts)
    ensures s.received <= s.accepted
  {
    TakenIsAccepted(senders, receivers, s);
    KeptIff(s.receipts);
  }

  /** What was read is what all finished calls had read, in lock order, and then the current
      reader's buffer; what was received is the same without the failed calls.  So between calls
      everything read has been received if and only if no failed call had read anything. */
  lemma ReceivedIff(senders: nat, receivers: nat, s: State)
    requires Reachable(senders, receivers, s)
    ensures s.received == KeptBy(s.receipts)
    ensures exists partial ::
              && s.taken == ReadBy(s.receipts) + partial
              && (ReceiveFree(s) ==> partial == [])
              && (forall j :: 0 <= j < |s.receivers| && HoldsReceive(s.receivers[j]) ==> partial == BufferOf(s.receivers[j]))
    ensures ReceiveFree(s) ==> (s.received == s.taken <==> LostNothing(s.receipts))
  {
    TakenIsAccepted(senders, receivers, s);
    KeptIff(s.receipts);
    ReachableInv(senders, receivers, s);
    if j :| 0 <= j < |s.receivers| && HoldsReceive(s.receivers[j]) {
      assert s.taken == ReadBy(s.receipts) + BufferOf(s.receivers[j]);
      assert forall k :: 0 <= k < |s.receivers| && HoldsReceive(s.receivers[k]) ==> k == j;
    } else {
      assert s.taken == ReadBy(s.receipts) + [];
    }
  }

  // ---------------------------------------------------------------- the condition is needed

  lemma {:induction false} Append(s: State, steps: seq<Step>, st: Step)
    requires Legal(s, steps) && Enabled(Exec(s, steps), st)
    ensures Legal(s, steps + [st]) && Exec(s, steps + [st]) == Next(Exec(s, steps), st)
    decreases |steps|
  {
    if steps == [] {
      assert [st][1..] == [];
    } else {
      var t := Next(s, steps[0]);
      Append(t, steps[1..], st);
      assert (steps + [st])[1..] == steps[1..] + [st];
    }
  }

  lemma Extend(senders: nat, receivers: nat, s: State, st: Step) returns (t: State)
    requires Reachable(senders, receivers, s) && Enabled(s, st)
    ensures Reachable(senders, receivers, t) && t == Next(s, st)
  {
    var steps :| Legal(Init(senders, receivers), steps) && Exec(Init(senders, receivers), steps) == s;
    Append(Init(senders, receivers), steps, st);
    t := Next(s, st);
  }

  lemma TwoBytesSent() returns (s: State)
    ensures Reachable(1, 1, s)
    ensures s == State([Quiet], [Silent], [SendCall([1, 2], 2, 2)], [1, 2], [1, 2], [], [], [], [])
  {
    s := Init(1, 1);
    assert Legal(s, []) && Exec(s, []) == s;
    s := Extend(1, 1, s, CallSend(0, [1, 2]));
    s := Extend(1, 1, s, LockSend(0));
    s := Extend(1, 1, s, SendSome(0, 2));
    s := Extend(1, 1, s, SendDone(0));
  }

  /** Two bytes arrive at a reader that knows of both. */
  lemma TwoBytesArrive() returns (s: State)
    ensures Reachable(1, 1, s)
    ensures s == State([Quiet], [Reading([], 2)], [SendCall([1, 2], 2, 2)], [1, 2], [], [1, 2], [], [], [])
  {
    s := TwoBytesSent();
    s := Extend(1, 1, s, Deliver(2));
    s := Extend(1, 1, s, CallReceive(0));
    s := Extend(1, 1, s, LockReceive(0));
    s := Extend(1, 1, s, TakeSnapshot(0));
  }

  lemma OneByteDropped() returns (s: State)
    ensures Reachable(1, 1, s)
    ensures s == State([Quiet], [Silent], [SendCall([1, 2], 2, 2)], [1, 2], [], [2], [1], [], [ReceiveCall([1], -1)])
  {
    s := TwoBytesArrive();
    s := Extend(1, 1, s, ReadSome(0, 1));
    s := Extend(1, 1, s, ReadFail(0));
  }

  lemma SecondCallReads() returns (s: State)
    ensures Reachable(1, 1, s)
    ensures s == State([Quiet], [Reading([], 1)], [SendCall([1, 2], 2, 2)], [1, 2], [], [2], [1], [], [ReceiveCall([1], -1)])
  {
    s := OneByteDropped();
    s := Extend(1, 1, s, CallReceive(0));
    s := Extend(1, 1, s, LockReceive(0));
    s := Extend(1, 1, s, TakeSnapshot(0));
  }

  /** A receive call that fails after it has read something drops it, and the next call goes on
      behind the gap: what is received then is no prefix of what was sent. */
  lemma FailedReceiveLeavesGap() returns (s: State)
    ensures Reachable(1, 1, s) && s.accepted == [1, 2] && s.received == [2] && !LostNothing(s.receipts)
  {
    s := SecondCallReads();
    s := Extend(1, 1, s, ReadSome(0, 1));
    s := Extend(1, 1, s, ReadDone(0));
    assert s.receipts[0] == ReceiveCall([1], -1);
  }
}
