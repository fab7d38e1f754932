/**
  The plain TCP handler: the send loop, the bounded read loop, and the reads built on it.

  The operating system answers each call as a script says; a script that has run out answers
  every further call in full, so interruptions are arbitrary but finitely many.  Bytes may
  arrive before any read.
*/
module TcpTransfer {
  import opened Bytes

  /** What one send() does: accept up to `n` bytes (0 is returned as such), be interrupted, or
      fail for another reason. */
  datatype SendAnswer = Accepts(n: nat) | SendInterrupted | SendFails

  /** What happens at one read(): first `arrived` comes in, then the call gives up to `n` bytes
      (at least one, if there is one), is interrupted, or fails for another reason. */
  datatype ReadAnswer = ReadAnswer(arrived: seq<Byte>, result: ReadResult)
  datatype ReadResult = Gives(n: nat) | ReadInterrupted | ReadFails

  datatype Errno = NoError | EINTR | EWOULDBLOCK | OtherError

  /** How a receive call ends: it returns a count or -1, or the buffer of a negative size
      cannot be allocated. */
  datatype Received = Returned(n: int) | LengthError

  function Min(a: nat, b: nat): (n: nat) {
    if a < b then a else b
  }

  /** What the next read() answers; a script that has run out answers in full. */
  function NextAnswer(script: seq<ReadAnswer>, size: nat): (a: ReadAnswer) {
    if script == [] then ReadAnswer([], Gives(size)) else script[0]
  }

  /** A read that gives bytes at all gives one at least, if there is one. */
  function AtLeastOne(k: nat): (n: nat) {
    if k == 0 then 1 else k
  }

  /** How much a read of `size` bytes gives while `buffered` bytes wait: what the answer offers, no
      more than was asked for, and no more than there is. */
  function GivenBy(answer: ReadAnswer, size: nat, buffered: nat): (n: nat) {
    match answer.result
    case Gives(k) => Min(Min(AtLeastOne(k), size), buffered + |answer.arrived|)
    case _ => 0
  }

  /** A connected descriptor as the kernel has it.  `taken` is history: all bytes read() has
      ever handed out. */
  class Socket {
    var inbound: seq<Byte>
    var closedByPeer: bool
    var outbound: seq<Byte>
    var sendScript: seq<SendAnswer>
    var readScript: seq<ReadAnswer>
    ghost var taken: seq<Byte>

    constructor (inbound: seq<Byte>, closedByPeer: bool, sendScript: seq<SendAnswer>, readScript: seq<ReadAnswer>)
      ensures this.inbound == inbound && this.closedByPeer == closedByPeer
      ensures this.outbound == [] && this.taken == []
      ensures this.sendScript == sendScript && this.readScript == readScript
    {
      this.inbound, this.closedByPeer, this.outbound := inbound, closedByPeer, [];
      this.sendScript, this.readScript, this.taken := sendScript, readScript, [];
    }

    /** Everything that has arrived so far, read or not. */
    ghost function Stream(): (r: seq<Byte>)
      reads this
    {
      taken + inbound
    }

    method Send(data: seq<Byte>) returns (n: int, errno: Errno)
      requires data != []
      modifies this`outbound, this`sendScript
      ensures old(sendScript) == [] ==> sendScript == [] && n == |data| && errno == NoError
      ensures old(sendScript) != [] ==>
                && sendScript == old(sendScript)[1..]
                && (match old(sendScript)[0]
                    case Accepts(k) => n == Min(k, |data|) && errno == NoError
                    case SendInterrupted => n == -1 && errno == EINTR
                    case SendFails => n == -1 && errno == OtherError)
      ensures outbound == if n > 0 then old(outbound) + data[..n] else old(outbound)
    {
      if sendScript == [] {
        n, errno := |data|, NoError;
      } else {
        match sendScript[0] {
          case Accepts(k) => n, errno := Min(k, |data|), NoError;
          case SendInterrupted => n, errno := -1, EINTR;
          case SendFails => n, errno := -1, OtherError;
        }
        sendScript := sendScript[1..];
      }
      if n > 0 {
        outbound := outbound + data[..n];
      }
    }

    /** read(); `GivenBy` says how much it gives. */
    method Read(size: nat) returns (chunk: seq<Byte>, n: int, errno: Errno)
      requires size > 0
      modifies this`inbound, this`readScript, this`taken
      ensures readScript == if old(readScript) == [] then [] else old(readScript)[1..]
      ensures n == -1 <==> errno != NoError
      ensures n >= 0 ==> |chunk| == n
      ensures n < 0 ==> chunk == [] && n == -1
      ensures n <= size
      // bytes come from the front, new ones join at the end, nothing else changes
      ensures Stream() == old(Stream()) + NextAnswer(old(readScript), size).arrived && taken == old(taken) + chunk
      ensures |chunk| == GivenBy(NextAnswer(old(readScript), size), size, |old(inbound)|)
      // only an empty buffer blocks or reads as closed
      ensures errno == EWOULDBLOCK ==> inbound == []
      ensures n == 0 ==> inbound == [] && closedByPeer
      ensures errno == EINTR <==> old(readScript) != [] && old(readScript)[0].result.ReadInterrupted?
      ensures errno == OtherError <==> old(readScript) != [] && old(readScript)[0].result.ReadFails?
    {
      var result := Gives(size);
      if readScript != [] {
        inbound := inbound + readScript[0].arrived;
        result := readScript[0].result;
        readScript := readScript[1..];
      }
      match result {
        case ReadInterrupted => chunk, n, errno := [], -1, EINTR;
        case ReadFails => chunk, n, errno := [], -1, OtherError;
        case Gives(k) =>
          if inbound == [] {
            chunk, n, errno := [], if closedByPeer then 0 else -1, if closedByPeer then NoError else EWOULDBLOCK;
          } else {
            var m := Min(Min(if k == 0 then 1 else k, size), |inbound|);
            chunk, n, errno := inbound[..m], m, NoError;
            taken := taken + inbound[..m];
            inbound := inbound[m..];
          }
      }
    }
  }

  /** These answers let the send loop go on. */
  ghost predicate SendsGoOn(answers: seq<SendAnswer>) {
    forall i :: 0 <= i < |answers| ==> answers[i] != SendFails && answers[i] != Accepts(0)
  }

  /** What these answers offer to accept, taken together. */
  function Offered(answers: seq<SendAnswer>): (n: nat) {
    if answers == [] then 0
    else Offered(ButLast(answers)) + if Last(answers).Accepts? then Last(answers).n else 0
  }

  /** A call of sendData that returns `r` after `sent` of `size` bytes used these answers, and left
      the others.  All but the last let it go on and had not accepted everything.  The last one
      fails, and -1 is returned; or it accepts nothing, and 0 is returned; and otherwise everything
      has been accepted, by these answers or because there are no more. */
  ghost predicate SendAnswered(answers: seq<SendAnswer>, left: seq<SendAnswer>, size: nat, sent: nat, r: int) {
    && (answers != [] ==> SendsGoOn(ButLast(answers)) && Offered(ButLast(answers)) < size)
    && if answers != [] && Last(answers) == SendFails then r == -1 && sent == Offered(answers) < size
       else if answers != [] && Last(answers) == Accepts(0) then r == 0 && sent == Offered(answers) < size
       else r == size == sent && (Offered(answers) >= size || left == [])
  }

  function Last<T>(s: seq<T>): (x: T)
    requires s != []
  {
    s[|s| - 1]
  }

  function ButLast<T>(s: seq<T>): (r: seq<T>)
    requires s != []
  {
    s[..|s| - 1]
  }

  /**
    TCPServerSocketHandler::sendData, under the socket mutex; `answers` are the answers it used.

    The kernel accepts a contiguous prefix of the data of `sent` bytes, the whole of it exactly when
    the call returns its full length: always what the answers offer, and what is left goes out once
    there are no more answers.  The call returns -1 exactly when an answer other than an interruption
    failed, and 0 for non-empty data exactly when an answer accepted nothing.
  */
  method SendData(socket: Socket, data: seq<Byte>) returns (r: int, ghost sent: nat, ghost answers: seq<SendAnswer>)
    modifies socket`outbound, socket`sendScript
    ensures sent <= |data| && socket.outbound == old(socket.outbound) + data[..sent]
    ensures old(socket.sendScript) == answers + socket.sendScript
    ensures SendAnswered(answers, socket.sendScript, |data|, sent, r)
  {
    var totalSent := 0;
    answers := [];
    ghost var script := socket.sendScript;
    ghost var before := socket.outbound;
    while totalSent < |data|
      invariant 0 <= totalSent <= |data|
      invariant socket.outbound == before + data[..totalSent]
      invariant SendsGoOn(answers) && script == answers + socket.sendScript
      invariant answers != [] ==> Offered(ButLast(answers)) < |data|
      invariant socket.sendScript == [] || totalSent == Min(Offered(answers), |data|)
      decreases |socket.sendScript|, |data| - totalSent
    {
      ghost var left := socket.sendScript;
      var bytesSent, errno := socket.Send(data[totalSent..]);
      if left != [] {
        UseOne(script, answers, left);
        answers := answers + [left[0]];
      }
      if bytesSent < 0 {
        if errno == EINTR {
          continue;
        } else {
          return -1, totalSent, answers;
        }
      }
      if bytesSent == 0 {
        return 0, totalSent, answers;
      }
      Joined(before, data, totalSent, bytesSent);
      totalSent := totalSent + bytesSent;
    }
    r, sent := totalSent, totalSent;
  }

  lemma UseOne<T>(script: seq<T>, answers: seq<T>, left: seq<T>)
    requires script == answers + left && left != []
    ensures script == (answers + [left[0]]) + left[1..]
    ensures ButLast(answers + [left[0]]) == answers && Last(answers + [left[0]]) == left[0]
  {
  }

  lemma Joined(before: seq<Byte>, data: seq<Byte>, a: nat, n: nat)
    requires a + n <= |data|
    ensures before + data[..a] + data[a..][..n] == before + data[..a + n]
  {
    assert data[..a] + data[a..][..n] == data[..a + n];
  }

  ghost predicate ReadsGoOn(answers: seq<ReadAnswer>) {
    forall i :: 0 <= i < |answers| ==> !answers[i].result.ReadFails?
  }

  /** Everything that arrives with the first `used` answers. */
  function Arrived(script: seq<ReadAnswer>, used: nat): (r: seq<Byte>)
    requires used <= |script|
  {
    if used == 0 then [] else Arrived(script, used - 1) + script[used - 1].arrived
  }

  /** How many bytes there have been to read by then, if `before` were buffered at first. */
  function Available(before: nat, script: seq<ReadAnswer>, used: nat): (n: nat)
    requires used <= |script|
  {
    before + |Arrived(script, used)|
  }

  /** How many of `size` bytes the first `used` answers give one after the other: each adds what it
      offers, up to what is wanted, and up to what there is. */
  function Got(before: nat, script: seq<ReadAnswer>, used: nat, size: nat): (n: nat)
    requires used <= |script|
    ensures n <= size && n <= Available(before, script, used)
  {
    if used == 0 then 0
    else
      var n := Got(before, script, used - 1, size);
      match script[used - 1].result
      case Gives(k) => Min(Min(n + AtLeastOne(k), size), Available(before, script, used))
      case _ => n
  }

  /** What the first `used` answers offer, taken together. */
  function Total(script: seq<ReadAnswer>, used: nat): (n: nat)
    requires used <= |script|
  {
    if used == 0 then 0
    else Total(script, used - 1) + if script[used - 1].result.Gives? then AtLeastOne(script[used - 1].result.n) else 0
  }

  /** When everything wanted is buffered, as it is for receiveData, the answers give their sum, up to
      what is wanted. */
  lemma {:induction false} GotOfBuffered(before: nat, script: seq<ReadAnswer>, used: nat, size: nat)
    requires used <= |script| && size <= before
    ensures Got(before, script, used, size) == Min(Total(script, used), size)
  {
    if used == 0 {
    } else {
      GotOfBuffered(before, script, used - 1, size);
    }
  }

  /** The read loop goes on to answer `i` and beyond it: something is still wanted, and the answer
      neither fails nor finds the buffer empty. */
  ghost predicate ReadsPast(before: nat, script: seq<ReadAnswer>, i: nat, size: nat)
    requires i < |script|
  {
    && Got(before, script, i, size) < size && !script[i].result.ReadFails?
    && (script[i].result.Gives? ==> Got(before, script, i, size) < Available(before, script, i + 1))
  }

  /** A receive of `size` bytes that ends with `r` used the first `used` answers.  It had to read on
      past all but the last.  It returns -1 if and only if the last one fails, and otherwise the
      number of bytes wanted, or of all there are if there are fewer.  If answers are left, those used
      gave everything wanted, or the last one found the buffer empty. */
  ghost predicate ReadAnswered(before: nat, script: seq<ReadAnswer>, used: nat, size: nat, r: Received)
  {
    && used <= |script|
    && (forall i :: 0 <= i < used - 1 ==> ReadsPast(before, script, i, size))
    && (used > 0 ==> Got(before, script, used - 1, size) < size)
    && (r == Returned(-1) <==> used > 0 && script[used - 1].result.ReadFails?)
    && (r != Returned(-1) ==>
          && r == Returned(Min(size, Available(before, script, used)))
          && (used < |script| ==>
                || Got(before, script, used, size) == size
                || (used > 0 && script[used - 1].result.Gives?
                    && Got(before, script, used - 1, size) == Available(before, script, used))))
  }

  /** How many bytes such a receive takes off the stream; a failed one loses them. */
  function TakenBy(before: nat, script: seq<ReadAnswer>, used: nat, size: nat, r: Received): (n: nat)
    requires used <= |script|
  {
    if r.Returned? && r.n >= 0 then r.n else Got(before, script, used, size)
  }

  /** The read loop is at its head: `total` bytes read, and not stopped yet. */
  ghost predicate Progress(before: nat, script: seq<ReadAnswer>, used: nat, size: nat, total: nat) {
    && used <= |script|
    && (forall i :: 0 <= i < used ==> ReadsPast(before, script, i, size))
    && (used == |script| || total == Got(before, script, used, size))
  }

  /** A failing answer ends the loop. */
  lemma StepFails(before: nat, script: seq<ReadAnswer>, used: nat, size: nat, total: nat)
    requires Progress(before, script, used, size, total) && total < size
    requires used < |script| && script[used].result.ReadFails?
    ensures ReadAnswered(before, script, used + 1, size, Returned(-1)) && total == Got(before, script, used + 1, size)
  {
  }

  /** The loop goes on. */
  lemma StepGoesOn(before: nat, script: seq<ReadAnswer>, used: nat, size: nat, total: nat)
    requires Progress(before, script, used, size, total) && total < size && total <= Available(before, script, used)
    requires used < |script| && !script[used].result.ReadFails?
    ensures var given := GivenBy(script[used], size - total, Available(before, script, used) - total);
            script[used].result.ReadInterrupted? || given > 0 ==> Progress(before, script, used + 1, size, total + given)
  {
    GotNext(before, script, used, size);
  }

  /** The buffer is empty, whether or not an answer was used to find out. */
  lemma StepFindsNothing(before: nat, script: seq<ReadAnswer>, used: nat, size: nat, total: nat)
    requires Progress(before, script, used, size, total) && total < size
    ensures used < |script| && script[used].result.Gives? && total == Available(before, script, used + 1) ==>
              ReadAnswered(before, script, used + 1, size, Returned(total))
    ensures used == |script| && total == Available(before, script, used) ==>
              ReadAnswered(before, script, used, size, Returned(total))
  {
    if used > 0 {
      assert ReadsPast(before, script, used - 1, size);
    }
  }

  /** One more read: it fails, or the loop goes on, or it has found the buffer empty. */
  lemma ReadStep(before: nat, script: seq<ReadAnswer>, used: nat, size: nat, total: nat)
    requires Progress(before, script, used, size, total) && total < size && total <= Available(before, script, used)
    ensures var now := if used < |script| then used + 1 else used;
            var answer := NextAnswer(script[used..], size - total);
            var given := GivenBy(answer, size - total, Available(before, script, used) - total);
            && (answer.result.ReadFails? ==>
                  ReadAnswered(before, script, now, size, Returned(-1)) && total == Got(before, script, now, size))
            && (answer.result.ReadInterrupted? || given > 0 ==> Progress(before, script, now, size, total + given))
            && (answer.result.Gives? && given == 0 ==> ReadAnswered(before, script, now, size, Returned(total)))
  {
    StepFindsNothing(before, script, used, size, total);
    if used < |script| {
      GotNext(before, script, used, size);
      if script[used].result.ReadFails? {
        StepFails(before, script, used, size, total);
      } else {
        StepGoesOn(before, script, used, size, total);
      }
    }
  }

  /** One answer more. */
  lemma GotNext(before: nat, script: seq<ReadAnswer>, used: nat, size: nat)
    requires used < |script|
    ensures var n := Got(before, script, used, size);
            && Got(before, script, used + 1, size) == n + GivenBy(script[used], size - n, Available(before, script, used) - n)
            && Available(before, script, used + 1) == Available(before, script, used) + |script[used].arrived|
  {
  }

  lemma AllRead(before: nat, script: seq<ReadAnswer>, used: nat, size: nat)
    requires Progress(before, script, used, size, size) && size <= Available(before, script, used)
    ensures ReadAnswered(before, script, used, size, Returned(size))
  {
    if used > 0 {
      assert ReadsPast(before, script, used - 1, size);
    }
  }

  /** The answers used account for the script and for everything that has arrived. */
  ghost predicate Follows(socket: Socket, stream: seq<Byte>, script: seq<ReadAnswer>, used: nat)
    reads socket
  {
    used <= |script| && socket.readScript == script[used..] && socket.Stream() == stream + Arrived(script, used)
  }

  /** One read() of the loop, which has read `total` of `size` bytes. */
  method ReadOnce(socket: Socket, size: nat, total: nat, ghost taken: seq<Byte>, ghost buffer: seq<Byte>,
                  ghost before: nat, ghost stream: seq<Byte>, ghost script: seq<ReadAnswer>, ghost was: nat)
    returns (chunk: seq<Byte>, n: int, errno: Errno, ghost used: nat)
    requires total == |buffer| < size && socket.taken == taken + buffer && |stream| == |taken| + before
    requires Follows(socket, stream, script, was) && Progress(before, script, was, size, total)
    modifies socket`inbound, socket`readScript, socket`taken
    ensures Follows(socket, stream, script, used)
    ensures socket.taken == if n > 0 then taken + (buffer + chunk) else taken + buffer
    ensures used == (if was < |script| then was + 1 else was)
    ensures n == -1 <==> errno != NoError
    ensures if n >= 0 then |chunk| == n else chunk == [] && n == -1
    ensures n <= size - total && (errno == EINTR ==> was < |script|)
    ensures errno == EWOULDBLOCK || n == 0 ==>
              socket.inbound == [] && ReadAnswered(before, script, used, size, Returned(total))
    ensures errno == OtherError ==>
              ReadAnswered(before, script, used, size, Returned(-1)) && total == Got(before, script, used, size)
    ensures errno == EINTR || n > 0 ==> Progress(before, script, used, size, total + |chunk|)
  {
    Counted(socket.taken, socket.inbound, stream, Arrived(script, was));
    chunk, n, errno := socket.Read(size - total);
    used := if was < |script| then was + 1 else was;
    AnswerUsed(stream, script, was, size - total);
    ReadStep(before, script, was, size, total);
    assert taken + buffer + chunk == taken + (buffer + chunk);
  }

  lemma Counted(taken: seq<Byte>, inbound: seq<Byte>, stream: seq<Byte>, arrived: seq<Byte>)
    requires taken + inbound == stream + arrived
    ensures |taken| + |inbound| == |stream| + |arrived|
  {
    assert |taken + inbound| == |stream + arrived|;
  }

  lemma AnswerUsed(stream: seq<Byte>, script: seq<ReadAnswer>, used: nat, size: nat)
    requires used <= |script|
    ensures var now := if used < |script| then used + 1 else used;
            && script[now..] == (if script[used..] == [] then [] else script[used..][1..])
            && stream + Arrived(script, used) + NextAnswer(script[used..], size).arrived == stream + Arrived(script, now)
  {
    if used < |script| {
      assert stream + Arrived(script, used) + script[used].arrived == stream + (Arrived(script, used) + script[used].arrived);
    }
  }

  /** The loop of receivePartialData; `failed` says that a read has failed. */
  method ReadLoop(socket: Socket, dataSize: nat) returns (failed: bool, buffer: seq<Byte>, ghost used: nat)
    modifies socket`inbound, socket`readScript, socket`taken
    ensures Follows(socket, old(socket.Stream()), old(socket.readScript), used)
    ensures socket.taken == old(socket.taken) + buffer && |buffer| <= dataSize
    ensures var before, script := |old(socket.inbound)|, old(socket.readScript);
            && ReadAnswered(before, script, used, dataSize, Returned(if failed then -1 else |buffer|))
            && (failed ==> |buffer| == Got(before, script, used, dataSize))
    ensures !failed && |buffer| < dataSize ==> socket.inbound == []
  {
    ghost var script, before, was, stream := socket.readScript, socket.taken, socket.inbound, socket.Stream();
    assert stream + [] == stream;
    var totalBytesRead := 0;
    buffer, used := [], 0;
    while totalBytesRead < dataSize
      invariant 0 <= totalBytesRead <= dataSize && |buffer| == totalBytesRead
      invariant socket.taken == before + buffer
      invariant Follows(socket, stream, script, used) && Progress(|was|, script, used, dataSize, totalBytesRead)
      decreases |script| - used, dataSize - totalBytesRead
    {
      var chunk, bytesRead, errno;
      chunk, bytesRead, errno, used := ReadOnce(socket, dataSize, totalBytesRead, before, buffer, |was|, stream, script, used);
      if bytesRead < 0 {
        if errno == EINTR {
          continue;
        } else if errno == EWOULDBLOCK {
          break;
        } else {
          return true, buffer, used;
        }
      }
      if bytesRead == 0 {
        break;
      }
      buffer := buffer + chunk;
      totalBytesRead := totalBytesRead + bytesRead;
    }
    if totalBytesRead >= dataSize {
      Counted(socket.taken, socket.inbound, stream, Arrived(script, used));
      AllRead(|was|, script, used, dataSize);
    }
    failed := false;
  }

  /**
    TCPServerSocketHandler::receivePartialData; `result` is `data` after the call, and `used` says
    how many answers it used.

    A non-negative count says how many of the next stream bytes were appended, in order: as many as
    asked for, or all there were.  -1, exactly when an answer other than an interruption failed,
    appends nothing: what had been read by then is lost.
  */
  method ReceivePartialData(socket: Socket, dataSize: int, data: seq<Byte>)
    returns (r: Received, result: seq<Byte>, ghost used: nat)
    modifies socket`inbound, socket`readScript, socket`taken
    ensures r == LengthError <==> dataSize < 0
    ensures r == LengthError ==> result == data && unchanged(socket) && used == 0
    ensures Follows(socket, old(socket.Stream()), old(socket.readScript), used) && old(socket.taken) <= socket.taken
    ensures var before, script := |old(socket.inbound)|, old(socket.readScript);
            r != LengthError ==>
              && ReadAnswered(before, script, used, dataSize, r)
              && |socket.taken| == |old(socket.taken)| + TakenBy(before, script, used, dataSize, r)
    ensures result == if r.Returned? && r.n >= 0 then data + socket.taken[|old(socket.taken)|..] else data
    // the same from the caller's side
    ensures r != LengthError && 0 <= r.n < dataSize ==> socket.inbound == []
    ensures 0 <= dataSize <= |old(socket.inbound)| && r != Returned(-1) ==>
              r == Returned(dataSize) && result == data + old(socket.inbound)[..dataSize]
  {
    ghost var script, before, was := socket.readScript, socket.taken, socket.inbound;
    if dataSize < 0 {
      assert socket.Stream() + [] == socket.Stream();
      return LengthError, data, 0;
    }
    var failed, buffer;
    failed, buffer, used := ReadLoop(socket, dataSize);
    if failed {
      return Returned(-1), data, used;
    }
    TakenIsStream(before, buffer, was, Arrived(script, used), socket.inbound);
    result := data;
    if |buffer| > 0 {
      result := data + buffer;
    }
    r := Returned(|buffer|);
  }

  /** Bytes taken off the front are the front of what was buffered. */
  lemma TakenIsStream(before: seq<Byte>, buffer: seq<Byte>, was: seq<Byte>, arrived: seq<Byte>, left: seq<Byte>)
    requires (before + buffer) + left == (before + was) + arrived
    ensures (before + buffer)[|before|..] == buffer
    ensures |buffer| <= |was| ==> was[..|buffer|] == buffer
    ensures left == [] ==> |was| <= |buffer|
    ensures |buffer| <= |was| + |arrived|
  {
    assert |(before + buffer) + left| == |(before + was) + arrived|;
    if |buffer| <= |was| {
      forall i | 0 <= i < |buffer| ensures was[i] == buffer[i] {
        assert ((before + was) + arrived)[|before| + i] == ((before + buffer) + left)[|before| + i];
      }
    }
  }

  /** getAvailableDataInSocket: FIONREAD, which may fail. */
  method GetAvailableDataInSocket(socket: Socket, fails: bool) returns (n: int)
    ensures n == if fails then -1 else |socket.inbound|
  {
    n := if fails then -1 else |socket.inbound|;
  }

  /**
    TCPServerSocketHandler::receiveData, under the socket mutex: it appends exactly what
    FIONREAD reported, in one call, however the reads are cut up, and returns -1 exactly when a
    read fails.
  */
  method ReceiveData(socket: Socket, fionreadFails: bool, data: seq<Byte>)
    returns (r: Received, result: seq<Byte>, ghost used: nat)
    modifies socket`inbound, socket`readScript, socket`taken
    ensures r == LengthError <==> fionreadFails
    ensures r == LengthError ==> result == data && unchanged(socket) && used == 0
    ensures r == Returned(-1) ==> result == data && |socket.taken| - |old(socket.taken)| < |old(socket.inbound)|
    ensures r != LengthError && r != Returned(-1) ==>
              && r == Returned(|old(socket.inbound)|)
              && result == data + old(socket.inbound)
              && socket.taken == old(socket.taken) + old(socket.inbound)
    ensures Follows(socket, old(socket.Stream()), old(socket.readScript), used) && old(socket.taken) <= socket.taken
    ensures var size, script := |old(socket.inbound)|, old(socket.readScript);
            r != LengthError ==>
              && ReadAnswered(size, script, used, size, r)
              && |socket.taken| == |old(socket.taken)| + TakenBy(size, script, used, size, r)
  {
    var availableAmount := GetAvailableDataInSocket(socket, fionreadFails);
    r, result, used := ReceivePartialData(socket, availableAmount, data);
    if r != LengthError && r != Returned(-1) {
      assert old(socket.inbound)[..|old(socket.inbound)|] == old(socket.inbound);
      assert result[|data|..] == old(socket.inbound);
      assert socket.taken[|old(socket.taken)|..] == old(socket.inbound);
      assert socket.taken == old(socket.taken) + socket.taken[|old(socket.taken)|..];
    }
  }

  /**
    Reading `a` bytes and then `b` bytes, with at least a + b buffered and no failing read, gives
    what one read of a + b bytes gives, and leaves the stream at the same place, whatever the
    pattern of short reads and interruptions.
  */
  method SplitRead(socket: Socket, a: nat, b: nat, data: seq<Byte>) returns (r1: Received, r2: Received, result: seq<Byte>)
    requires a + b <= |socket.inbound|
    requires ReadsGoOn(socket.readScript)
    modifies socket`inbound, socket`readScript, socket`taken
    ensures r1 == Returned(a) && r2 == Returned(b)
    ensures result == data + old(socket.inbound)[..a + b]
    ensures |socket.taken| == |old(socket.taken)| + a + b && old(socket.Stream()) <= socket.Stream()
  {
    ghost var was, before, script := socket.inbound, socket.taken, socket.readScript;
    ghost var used;
    r1, result, used := ReceivePartialData(socket, a, data);
    GoesOn(|was|, script, used, a, r1);
    assert r1 == Returned(a) && result == data + was[..a];
    ghost var mid, first, later := socket.inbound, result, socket.readScript;
    SamePart(before, socket.taken, data, was[..a]);
    RestOfStream(before, was, a, mid);
    r2, result, used := ReceivePartialData(socket, b, result);
    GoesOn(|mid|, later, used, b, r2);
    assert r2 == Returned(b) && result == first + mid[..b];
    TwoParts(data, was, a, mid, b);
  }

  lemma SamePart(before: seq<Byte>, now: seq<Byte>, data: seq<Byte>, part: seq<Byte>)
    requires before <= now && data + now[|before|..] == data + part
    ensures now == before + part
  {
    assert now[|before|..] == (data + part)[|data|..];
  }

  lemma TwoParts(data: seq<Byte>, was: seq<Byte>, a: nat, mid: seq<Byte>, b: nat)
    requires a + b <= |was| && was[a..] <= mid
    ensures (data + was[..a]) + mid[..b] == data + was[..a + b]
  {
    assert was[..a] + mid[..b] == was[..a + b];
  }

  /** A receive that met no failing answer has not failed, and leaves none. */
  lemma GoesOn(before: nat, script: seq<ReadAnswer>, used: nat, size: nat, r: Received)
    requires ReadsGoOn(script) && ReadAnswered(before, script, used, size, r)
    ensures r != Returned(-1) && ReadsGoOn(script[used..])
  {
  }

  lemma RestOfStream(before: seq<Byte>, was: seq<Byte>, a: nat, mid: seq<Byte>)
    requires a <= |was| && before + was <= (before + was[..a]) + mid
    ensures was[a..] <= mid
  {
    forall i | 0 <= i < |was| - a ensures i < |mid| && was[a + i] == mid[i] {
      assert (before + was)[|before| + a + i] == ((before + was[..a]) + mid)[|before| + a + i];
    }
  }

  /**
    IOWorkerThreadHandler::handleIOTask: FIONREAD, a read of 4 bytes, a read of the rest; `r1` and
    `r2` are what the reads return, `used1` and `used2` how many answers they use.

    The first read is for 4 bytes whatever FIONREAD reports: if it does not fail it gives the next 4
    bytes of the stream, or all there are.  The second size is negative exactly when FIONREAD fails
    or reports fewer than 4 bytes, and otherwise it is for what was buffered behind the first 4.  A
    read that fails gives nothing and loses what it had taken.  When neither fails, the two strings
    are together all that was buffered, the first of 4 bytes.
  */
  method HandleIOTask(socket: Socket, fionreadFails: bool)
    returns (r1: Received, first: seq<Byte>, r2: Received, rest: seq<Byte>, ghost used1: nat, ghost used2: nat)
    modifies socket`inbound, socket`readScript, socket`taken
    ensures r1.Returned? && r1.n <= 4
    ensures r2 == LengthError <==> fionreadFails || |old(socket.inbound)| < 4
    // what is read first
    ensures r1.n == -1 ==> first == []
    ensures r1.n != -1 ==>
              && |first| == r1.n && old(socket.taken) + first <= socket.taken
              && (if |old(socket.inbound)| >= 4 then first == old(socket.inbound)[..4] else old(socket.inbound) <= first)
              && (r2 == LengthError ==> socket.taken == old(socket.taken) + first)
              && (r2 == LengthError && r1.n < 4 ==> socket.inbound == [])
    // what is read then
    ensures r2 == LengthError || r2.n == -1 ==> rest == []
    ensures r2 != LengthError && r2.n != -1 ==>
              && |rest| == r2.n <= |socket.taken| && socket.taken[|socket.taken| - r2.n..] == rest
              && (r1.n != -1 ==> socket.taken == old(socket.taken) + first + rest)
    ensures r1.n != -1 && r2 != LengthError && r2.n != -1 ==> |first| == 4 && first + rest == old(socket.inbound)
    // by which answers
    ensures used1 <= |old(socket.readScript)| && used2 <= |old(socket.readScript)| - used1
    ensures var script := old(socket.readScript);
            var later := script[used1..];
            && socket.readScript == later[used2..]
            && socket.Stream() == old(socket.Stream()) + Arrived(script, used1) + Arrived(later, used2)
    ensures var before, script := |old(socket.inbound)|, old(socket.readScript);
            var later, taken1 := script[used1..], TakenBy(before, script, used1, 4, r1);
            && ReadAnswered(before, script, used1, 4, r1)
            && var left := Available(before, script, used1) - taken1;
               if r2 == LengthError then used2 == 0 && |socket.taken| == |old(socket.taken)| + taken1
               else && ReadAnswered(left, later, used2, before - 4, r2)
                    && |socket.taken| == |old(socket.taken)| + taken1 + TakenBy(left, later, used2, before - 4, r2)
  {
    var available := GetAvailableDataInSocket(socket, fionreadFails);
    ghost var was, before, script := socket.inbound, socket.taken, socket.readScript;
    r1, first, used1 := ReceiveFresh(socket, 4);
    ghost var left, mid := socket.inbound, socket.taken;
    LeftBuffered(before, was, Arrived(script, used1), mid, left);
    assert |left| == Available(|was|, script, used1) - TakenBy(|was|, script, used1, 4, r1);
    r2, rest, used2 := ReceiveFresh(socket, available - 4);
    BothParts(before, mid, socket.taken, first, rest, r1, r2);
    if r1.n != -1 && |was| >= 4 {
      AllOfIt(before, was, Arrived(script, used1), left, rest, r2);
    }
  }

  lemma LeftBuffered(before: seq<Byte>, was: seq<Byte>, arrived: seq<Byte>, now: seq<Byte>, left: seq<Byte>)
    requires before <= now && now + left == (before + was) + arrived
    ensures |left| == |was| + |arrived| - (|now| - |before|)
  {
    assert |now + left| == |(before + was) + arrived|;
  }

  /** A receive into an empty string. */
  method ReceiveFresh(socket: Socket, dataSize: int) returns (r: Received, part: seq<Byte>, ghost used: nat)
    modifies socket`inbound, socket`readScript, socket`taken
    ensures r == LengthError <==> dataSize < 0
    ensures r == LengthError ==> unchanged(socket) && used == 0
    ensures Follows(socket, old(socket.Stream()), old(socket.readScript), used)
    ensures var before, script := |old(socket.inbound)|, old(socket.readScript);
            r != LengthError ==>
              && -1 <= r.n <= dataSize
              && ReadAnswered(before, script, used, dataSize, r)
              && |socket.taken| == |old(socket.taken)| + TakenBy(before, script, used, dataSize, r)
    ensures Gave(old(socket.taken), socket.taken, part, r)
    ensures r != LengthError && 0 <= r.n < dataSize ==> socket.inbound == []
    ensures r != LengthError && r.n >= |old(socket.inbound)| ==> old(socket.inbound) <= part
    ensures 0 <= dataSize <= |old(socket.inbound)| && r != Returned(-1) ==>
              r == Returned(dataSize) && part == old(socket.inbound)[..dataSize]
  {
    ghost var was, before, script := socket.inbound, socket.taken, socket.readScript;
    r, part, used := ReceivePartialData(socket, dataSize, []);
    OwnPart(before, socket.taken, part, r);
    if r != LengthError && r.n >= |was| {
      BufferedFirst(before, was, Arrived(script, used), part, socket.inbound);
    }
  }

  lemma BufferedFirst(before: seq<Byte>, was: seq<Byte>, arrived: seq<Byte>, part: seq<Byte>, left: seq<Byte>)
    requires (before + part) + left == (before + was) + arrived && |part| >= |was|
    ensures was <= part
  {
    forall i | 0 <= i < |was| ensures was[i] == part[i] {
      assert ((before + was) + arrived)[|before| + i] == ((before + part) + left)[|before| + i];
    }
  }

  /** The first 4 bytes, and then the rest of what was buffered. */
  lemma AllOfIt(before: seq<Byte>, was: seq<Byte>, arrived: seq<Byte>, left: seq<Byte>, rest: seq<Byte>, r2: Received)
    requires |was| >= 4 && (before + was[..4]) + left == (before + was) + arrived
    requires r2.Returned? && r2.n >= 0 && |was| - 4 <= |left| ==> rest == left[..|was| - 4]
    ensures r2.Returned? && r2.n >= 0 ==> was[..4] + rest == was
  {
    RestOfStream(before, was, 4, left);
    TwoParts([], was, 4, left, |was| - 4);
  }

  /** A receive into an empty string: what it gave is what was taken meanwhile, or nothing. */
  ghost predicate Gave(before: seq<Byte>, now: seq<Byte>, part: seq<Byte>, r: Received) {
    if r == LengthError || r == Returned(-1) then part == [] && before <= now else |part| == r.n && now == before + part
  }

  lemma BothParts(before: seq<Byte>, mid: seq<Byte>, now: seq<Byte>, first: seq<Byte>, rest: seq<Byte>, r1: Received, r2: Received)
    requires r1.Returned? && Gave(before, mid, first, r1) && Gave(mid, now, rest, r2)
    ensures if r1.n == -1 then first == [] else |first| == r1.n && before + first <= now
    ensures r2 == LengthError || r2.n == -1 ==> rest == []
    ensures r2 != LengthError && r2.n != -1 ==>
              && |rest| == r2.n <= |now| && now[|now| - r2.n..] == rest
              && (r1.n != -1 ==> now == before + first + rest)
  {
  }

  /** What was appended to nothing is what was taken meanwhile. */
  lemma OwnPart(before: seq<Byte>, now: seq<Byte>, part: seq<Byte>, r: Received)
    requires before <= now
    requires r == LengthError || r == Returned(-1) ==> part == []
    requires r != LengthError && r != Returned(-1) ==> part == [] + now[|before|..] && |now| == |before| + r.n
    ensures Gave(before, now, part, r)
  {
  }
}
