/**
  The TLS handler's reads: chunks of at most 1000 bytes until something stops the loop.  OpenSSL
  answers each SSL_read as a script says, and in full once the script has run out.
*/
module TlsTransfer {
  import opened Bytes

  const BUFFER_SIZE: nat := 1000

  /** What one SSL_read does: give up to `n` bytes (at least one, if there is one), report that
      it would block, that the peer closed cleanly, or another error. */
  datatype SslAnswer = Gives(n: nat) | WantReadOrWrite | ZeroReturn | Fails

  datatype SslError = NoError | WouldBlock | CleanClose | OtherError

  function AtMost(n: nat, bound: nat): (m: nat) {
    if n < bound then n else bound
  }

  /** How much a read of at most `size` bytes gives when `available` bytes are pending. */
  function Given(answer: SslAnswer, size: nat, available: nat): (n: nat)
    requires size > 0
    ensures n <= size && n <= available && (n == 0 <==> available == 0 || !answer.Gives?)
  {
    if !answer.Gives? || available == 0 then 0
    else
      var n := if answer.n == 0 then 1 else answer.n;
      var m := if n > size then size else n;
      if m > available then available else m
  }

  /** An established session.  `pending` is the decrypted stream still to be read. */
  class Session {
    var pending: seq<Byte>
    var script: seq<SslAnswer>

    constructor (pending: seq<Byte>, script: seq<SslAnswer>)
      ensures this.pending == pending && this.script == script
    {
      this.pending, this.script := pending, script;
    }

    method SslRead(size: nat) returns (chunk: seq<Byte>, n: int, error: SslError)
      requires size > 0
      modifies this
      ensures script == if old(script) == [] then [] else old(script)[1..]
      ensures old(pending) == chunk + pending
      ensures if n > 0 then error == NoError && |chunk| == n <= size else chunk == [] && error != NoError
      ensures |chunk| == Given(if old(script) == [] then Gives(size) else old(script)[0], size, |old(pending)|)
      ensures error == OtherError <==> old(script) != [] && old(script)[0] == Fails
    {
      var answer := Gives(size);
      if script != [] {
        answer := script[0];
        script := script[1..];
      }
      chunk, n := [], -1;
      match answer {
        case Fails => error := OtherError;
        case ZeroReturn => error := CleanClose;
        case WantReadOrWrite => error := WouldBlock;
        case Gives(k) =>
          if pending == [] {
            error := WouldBlock;
          } else {
            n := Given(answer, size, |pending|);
            error := NoError;
            chunk := pending[..n];
            pending := pending[n..];
          }
      }
    }
  }

  /** An answer after which the loops do not go on although bytes may be left: one that gives
      less than the buffer holds, would block, or is a clean close. */
  predicate Stops(answer: SslAnswer, size: int) {
    answer == WantReadOrWrite || answer == ZeroReturn || (answer.Gives? && answer.n < size)
  }

  /** The first answers all fill the buffer, so the loop goes on behind each of them. */
  ghost predicate GoOn(script: seq<SslAnswer>, used: nat) {
    used <= |script| && forall i :: 0 <= i < used ==> script[i].Gives? && script[i].n >= 1000
  }

  /** The last of these answers gave what it offers of the next 1000 bytes, or of what is still wanted,
      and each one before it gave 1000: `total` altogether. */
  ghost predicate Gave(script: seq<SslAnswer>, used: nat, wanted: nat, pending: nat, total: nat) {
    && 0 < used <= |script| && 1000 * (used - 1) < wanted && 1000 * (used - 1) <= pending
    && total == 1000 * (used - 1)
                + Given(script[used - 1], AtMost(wanted - 1000 * (used - 1), 1000), pending - 1000 * (used - 1))
  }

  /** The loop of receivePartialData is at its head, with `total` of `wanted` bytes read: while more is
      wanted every answer has given 1000 bytes. */
  ghost predicate AtHead(script: seq<SslAnswer>, used: nat, wanted: int, pending: nat, total: nat) {
    && used <= |script| && total <= pending
    && (total < wanted ==> GoOn(script, used) && (used < |script| ==> total == 1000 * used))
    && (total >= wanted && used > 0 ==> GoOn(script, used - 1) && script[used - 1].Gives?)
    && (total >= wanted > 0 && used < |script| ==> Gave(script, used, wanted, pending, total))
  }

  /** What one more answer gives, whether the loop goes on behind it, and how it ends if not. */
  lemma AnswerRead(script: seq<SslAnswer>, used: nat, wanted: nat, pending: nat, total: nat)
    requires AtHead(script, used, wanted, pending, total) && total < wanted
    ensures var size := AtMost(wanted - total, 1000);
            var answer := if used < |script| then script[used] else SslAnswer.Gives(size);
            var now, given := if used < |script| then used + 1 else used, Given(answer, size, pending - total);
            && (used < |script| ==> script[used..][1..] == script[used + 1..] && script[used..][0] == script[used])
            && (given == size ==> AtHead(script, now, wanted, pending, total + given))
            && (given < size ==> Ended(script, now, wanted, pending, answer == Fails, total + given))
  {
  }

  lemma Append(before: seq<Byte>, chunk: seq<Byte>, rest: seq<Byte>)
    ensures before + (chunk + rest) == (before + chunk) + rest
  {
  }

  lemma Parts(front: seq<Byte>, rest: seq<Byte>)
    ensures (front + rest)[..|front|] == front && (front + rest)[|front|..] == rest
  {
  }

  /**
    TLSServerSocketHandler::receiveData, under the socket mutex; no session when m_SSL is null.

    A count r >= 0 appends exactly the next r bytes of the stream, in order.  -1, which is
    returned exactly without a session or after a failure, leaves `data` as it was; what the full
    buffers before the failure had taken off the stream is gone then.  The loop goes on behind
    answers that fill the buffer and no others, so bytes are left in the stream only behind an
    answer that stopped it.
  */
  method ReceiveData(session: Session?, data: seq<Byte>) returns (r: int, result: seq<Byte>)
    modifies session
    ensures session == null ==> r == -1
    ensures r >= -1
    ensures r == -1 ==> result == data
    ensures session != null && r >= 0 ==>
              && r <= |old(session.pending)|
              && result == data + old(session.pending)[..r]
              && session.pending == old(session.pending)[r..]
    ensures session != null ==>
              && |session.script| <= |old(session.script)|
              && var used := |old(session.script)| - |session.script|;
                 && (r == -1 ==>
                       && used > 0 && old(session.script)[used - 1] == Fails
                       && 1000 * (used - 1) <= |old(session.pending)|
                       && session.pending == old(session.pending)[1000 * (used - 1)..])
                 && (r >= 0 && used > 0 ==> old(session.script)[used - 1] != Fails)
                 && (used > 0 ==> GoOn(old(session.script), used - 1))
                 && (r >= 0 && session.pending != [] ==> used > 0 && Stops(old(session.script)[used - 1], 1000))
                 && (r >= 0 && (session.script != [] || session.pending != []) ==>
                       Gave(old(session.script), used, 1000 * used, |old(session.pending)|, r))
  {
    if session == null {
      return -1, data;
    }
    var receivedData: seq<Byte> := [];
    var totalBytesRead := 0;
    ghost var script, stream, used := session.script, session.pending, 0;
    while true
      invariant totalBytesRead == |receivedData|
      invariant stream == receivedData + session.pending
      invariant GoOn(script, used) && session.script == script[used..]
      invariant session.script != [] ==> totalBytesRead == BUFFER_SIZE * used
      decreases |session.script|, |session.pending|
    {
      ghost var left := session.pending;
      var chunk, bytesRead, error := session.SslRead(BUFFER_SIZE);
      if used < |script| {
        used := used + 1;
      }
      if bytesRead > 0 {
        Append(receivedData, chunk, session.pending);
        receivedData := receivedData + chunk;
        totalBytesRead := totalBytesRead + bytesRead;
      } else {
        assert left == session.pending;
        if error == WouldBlock {
          break;
        } else if error == CleanClose {
          break;
        } else {
          Parts(receivedData, session.pending);
          return -1, data;
        }
      }
      if bytesRead < BUFFER_SIZE {
        break;
      }
    }
    result := data;
    if totalBytesRead > 0 {
      result := data + receivedData;
    }
    Parts(receivedData, session.pending);
    r := totalBytesRead;
  }

  /** The loop has ended, `failed` or not, with `total` bytes read. */
  ghost predicate Ended(script: seq<SslAnswer>, used: nat, wanted: int, pending: nat, failed: bool, total: nat) {
    && used <= |script| && total <= pending && (total > 0 ==> total <= wanted)
    && (used > 0 ==> GoOn(script, used - 1))
    && if failed then used > 0 && script[used - 1] == Fails && total == 1000 * (used - 1)
       else && (used > 0 ==> script[used - 1] != Fails)
            && (total < wanted && total < pending ==> used > 0 && Stops(script[used - 1], 1000))
            && (wanted > 0 && (used < |script| || (total < wanted && total < pending)) ==>
                  Gave(script, used, wanted, pending, total))
  }

  /** The answers used and the bytes read account for the script and for the stream. */
  ghost predicate Follows(session: Session, stream: seq<Byte>, script: seq<SslAnswer>, used: nat, receivedData: seq<Byte>)
    reads session
  {
    used <= |script| && session.script == script[used..] && stream == receivedData + session.pending
  }

  /** One SSL_read of the loop. */
  method ReadOnce(session: Session, size: nat, ghost wanted: nat, ghost stream: seq<Byte>, ghost script: seq<SslAnswer>,
                  ghost was: nat, ghost receivedData: seq<Byte>)
    returns (chunk: seq<Byte>, n: int, error: SslError, ghost used: nat)
    requires |receivedData| < wanted && size == AtMost(wanted - |receivedData|, 1000)
    requires Follows(session, stream, script, was, receivedData)
    requires AtHead(script, was, wanted, |stream|, |receivedData|)
    modifies session
    ensures if n > 0 then |chunk| == n <= size && error == NoError else chunk == [] && error != NoError
    ensures Follows(session, stream, script, used, if n > 0 then receivedData + chunk else receivedData)
    ensures n == size ==> AtHead(script, used, wanted, |stream|, |receivedData| + n)
    ensures 0 < n < size ==> Ended(script, used, wanted, |stream|, false, |receivedData| + n)
    ensures n <= 0 ==> Ended(script, used, wanted, |stream|, error == OtherError, |receivedData|)
  {
    chunk, n, error := session.SslRead(size);
    Append(receivedData, chunk, session.pending);
    AnswerRead(script, was, wanted, |stream|, |receivedData|);
    used := if was < |script| then was + 1 else was;
    assert receivedData + [] == receivedData;
  }

  lemma AllRead(script: seq<SslAnswer>, used: nat, wanted: int, pending: nat, total: nat)
    requires AtHead(script, used, wanted, pending, total) && total >= wanted && (total > 0 ==> total == wanted)
    ensures Ended(script, used, wanted, pending, false, total)
  {
  }

  /** The loop of receivePartialData; `failed` says that a read has failed. */
  method ReadAtMost(session: Session, dataSize: int) returns (failed: bool, receivedData: seq<Byte>, ghost used: nat)
    modifies session
    ensures Ended(old(session.script), used, dataSize, |old(session.pending)|, failed, |receivedData|)
    ensures session.script == old(session.script)[used..] && old(session.pending) == receivedData + session.pending
  {
    var totalBytesRead := 0;
    var remainingSize := dataSize;
    receivedData, used := [], 0;
    ghost var script, stream := session.script, session.pending;
    while remainingSize > 0
      invariant totalBytesRead == |receivedData|
      invariant totalBytesRead + remainingSize == dataSize && (totalBytesRead == 0 || remainingSize >= 0)
      invariant Follows(session, stream, script, used, receivedData)
      invariant AtHead(script, used, dataSize, |stream|, totalBytesRead)
      decreases remainingSize
    {
      var size := if remainingSize < BUFFER_SIZE then remainingSize else BUFFER_SIZE;
      var chunk, bytesRead, error;
      chunk, bytesRead, error, used := ReadOnce(session, size, dataSize, stream, script, used, receivedData);
      if bytesRead > 0 {
        receivedData := receivedData + chunk;
        totalBytesRead := totalBytesRead + bytesRead;
        remainingSize := remainingSize - bytesRead;
      } else {
        if error == WouldBlock || error == CleanClose {
          break;
        }
        return true, receivedData, used;
      }
      if bytesRead < size {
        break;
      }
    }
    if remainingSize <= 0 {
      AllRead(script, used, dataSize, |stream|, totalBytesRead);
    }
    failed := false;
  }

  /**
    TLSServerSocketHandler::receivePartialData, for any `dataSize`, also a negative one.  As
    ReceiveData, but with at most `dataSize` bytes, and fewer only at the end of the stream or
    behind an answer that stopped the loop.
  */
  method ReceivePartialData(session: Session?, dataSize: int, data: seq<Byte>) returns (r: int, result: seq<Byte>)
    modifies session
    ensures session == null ==> r == -1
    ensures r >= -1 && (r > 0 ==> r <= dataSize)
    ensures r == -1 ==> result == data
    ensures session != null && r >= 0 ==>
              && r <= |old(session.pending)|
              && result == data + old(session.pending)[..r]
              && session.pending == old(session.pending)[r..]
    ensures session != null ==>
              && |session.script| <= |old(session.script)|
              && var used := |old(session.script)| - |session.script|;
                 && (r == -1 ==>
                       && used > 0 && old(session.script)[used - 1] == Fails
                       && 1000 * (used - 1) <= |old(session.pending)|
                       && session.pending == old(session.pending)[1000 * (used - 1)..])
                 && (r >= 0 && used > 0 ==> old(session.script)[used - 1] != Fails)
                 && (used > 0 ==> GoOn(old(session.script), used - 1))
                 && (0 <= r < dataSize && session.pending != [] ==> used > 0 && Stops(old(session.script)[used - 1], 1000))
                 && (r >= 0 && dataSize > 0 && (session.script != [] || (session.pending != [] && r < dataSize)) ==>
                       Gave(old(session.script), used, dataSize, |old(session.pending)|, r))
  {
    if session == null {
      return -1, data;
    }
    ghost var stream, script := session.pending, session.script;
    var failed, receivedData;
    ghost var used;
    failed, receivedData, used := ReadAtMost(session, dataSize);
    Parts(receivedData, session.pending);
    assert |session.script| == |script| - used;
    if failed {
      return -1, data;
    }
    result := data;
    if |receivedData| > 0 {
      result := data + receivedData;
    }
    r := |receivedData|;
  }
}
