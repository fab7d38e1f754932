# Eventplus server: a verified model

Eventplus is an edge-triggered epoll server: one acceptor, a round-robin group of pollers, a registry
of connections, and a pool of worker threads that call the application back. This project models its
concurrent protocol and its byte-moving loops in Dafny 4.11 and proves what they keep. Check it with
`dafny verify dfyconfig.toml`.

## What is modelled

**The worker pool** (`PoolMachine`, `PoolTheorems`, `ThreadPool`). Any number of workers and enqueuing
threads around one mutex and one condition variable, as a transition system with one step per access
to shared state. `notify_one` comes after the unlock, wakeups may be spurious, and the destructor
stores the stop flag without the mutex, as in the code. The class `ThreadPool` holds the fields
`m_tasks` and `m_stop` and is coupled to the machine: each method is a run of it.

**The way of a byte** (`FlowMachine`, `FlowInvariant`, `FlowTheorems`, `FlowHangups`,
`FlowCallbacks`). Arrival, edge, poller, queue, worker, FIONREAD snapshot and bounded read under the socket mutex, composed with the
whole pool machine. Any connection may hang up at any time and is then removed step by step under the
registry mutex, and any read may fail. The invariant names, for every connection that has itself
neither hung up nor had a failing read, what will read its unread bytes, whatever the others do; a
measure over bytes, edges, batch entries, hang-ups still possible, queue and all thread positions
falls with every step but arrivals.

**The registry** (`ServerMachine`, `ServerCore`, `ServerCoreProof`, `ServerInvariant`,
`ServerInvariantProof`, `ServerTheorems`, `ServerWitnesses`). Acceptor, pollers, workers and the
closing thread run in steps of one lock, system call, field access or unlock. The kernel is part of
the state: open descriptors, interest sets, reuse of descriptor numbers. Both the TCP and the TLS
handler are covered, failed handshakes included. A callback may send and receive on any connection,
also on one that has been closed.

**The same operations on fields** (`TcpServerSocket`, `EventScheduler`, `BatchService`,
`RegistryRuns`, `ServerRuns`). Classes with the fields of the program and methods with its loops.
Each method, called while acceptor and pollers rest (callbacks may be under way), is a run of
`ServerMachine` (`Leads(old(machine), machine)`), and its contract states the fields it leaves; the
theorems about runs therefore hold of them.

**The transfer loops** (`TcpTransfer`, `TlsTransfer`, `StreamMachine`, `StreamRuns`). The send and
receive loops against operating system calls that answer as an arbitrary script says: partial
transfers, interruptions, would-block, errors. `StreamMachine` puts any number of concurrent senders and
receivers at the two ends of a FIFO channel, and `StreamRuns` shows the TCP calls to be runs of it.

A state is *reachable* when some run ends in it, so a lemma about reachable states is about every
interleaving. Numbers of threads, pollers, connections and bytes are arbitrary.

## Assumptions about the environment

- Where progress is claimed there is at least one worker, and for freedom from deadlock one poller. The
  dispatcher, the removal handler and the event receiver are installed; callbacks do not close
  connections.
- `accept` returns a descriptor that is not open, and nothing else opens descriptors. Closing a
  descriptor removes it from epoll, and epoll refuses to add a closed descriptor.
- One `epoll_wait` batch holds at most one entry per registered descriptor.
- Closing everything begins when acceptor and pollers are outside a batch. The code does not join
  them before, so nothing is claimed about that race.
- `SSL_accept` returns; only its success matters. What `m_SSL` holds before `initConnection` is
  arbitrary, because no constructor of `EventStorePointer` sets it.
- FIONREAD reports the number of buffered bytes, and sizes are below 2^31. In `FlowMachine` and
  `StreamMachine` it does not fail.
- In `FlowMachine` and `StreamMachine`, no call still under way for a closed connection uses its
  descriptor number: such a call finds nothing there. The server does not see to this under TCP
  (`NumberReusedInside`), so the results about these two machines, `SnapshotIsKept`, `EndToEnd` and
  `ReceivedInPlaceIff` among them, are about servers whose callbacks keep to it.
- In `TcpTransfer` and `TlsTransfer` interruptions are finitely many.

## What the proofs show about the code

- A queue entry for a new connection can deliver no callback at all. `handleCallBackEvent` reads the
  shared kind up to three times, and it delivers nothing exactly when it reads new, data, data
  (`CallbackDelivered`, `NewTaskWithoutCallback`). Data and close entries always get one, and it is
  the one for the kind the connection has at the moment of choosing (`CallbackIsCurrent`).
- Under TLS a connection whose `m_SSL` happened to be null is never closed (`ClosedIff`, `TlsLeak`).
- The pool's destructor can wait for ever (`DestructorCanHang`), for one worker: one that was between
  the wait predicate and the wait when `notify_all` ran. Whether it finishes is decided there, unless
  a call of `enqueueTask` is still under way (`NotifyDecides`, `DestructorFinishesIff`).
- A TCP receive call that fails drops the bytes it had read, and the next call goes on behind the gap
  (`FailedReceiveLeavesGap`). So the end-to-end law needs its condition, that no failed call had read
  anything; byte by byte, what a call received is in its place exactly under that condition on the
  calls before it (`ReceivedInPlaceIff`).
- Under TCP, closing a connection takes no socket mutex. A callback inside that mutex can lose the
  descriptor and then send and receive on another connection that was given its number
  (`NumberReusedInside`); the number is its own exactly as long as the connection was not closed
  (`UserOwnsIff`, `UserLosesIff`). Under TLS nobody closes an inserted connection while a callback is
  inside its mutex (`TlsUserUndisturbed`), and none gets there but behind a non-null `m_SSL`
  (`AskingIff`); but the test precedes the mutex, so the pointer can be null inside
  (`NullSessionInside`), exactly when the connection was closed in between (`TlsUserOwnsIff`).
- With fewer than four bytes buffered, or when FIONREAD fails, `handleIOTask` asks for a negative
  number of bytes, after it has read up to four (`HandleIOTask`).
- No hang-up is lost: a server at rest has closed every registered connection whose peer has hung up
  (`AtRestAllClosed`) and chosen its closed callback, and no other's (`AtRestAllTold`), and it has
  read everything of the others unless a read failed (`AtRestAllRead`).

## Model

| member | source | states |
|---|---|---|
| PoolMachine.InvStep | src/threadpool/ThreadPool.cpp:14-48 | mutual exclusion, FIFO order, execution once, no lost wakeup and the shutdown bounds survive every step of every thread |
| PoolMachine.ConservationStep | src/threadpool/ThreadPool.cpp:24-45 | the count of pending notifies and re-checking workers covers the queue after every step, although notify_one is outside the lock |
| PoolTheorems.FifoConservation | src/threadpool/ThreadPool.cpp:24-48 | in every reachable state, what was enqueued is what was dequeued, in order, followed by the queue |
| PoolTheorems.ExecutedOnce | src/threadpool/ThreadPool.cpp:32-48 | each dequeued entry is executing in exactly one worker or finished exactly once |
| PoolTheorems.NoLostWakeup | src/threadpool/ThreadPool.cpp:24-45 | before stop, while a worker sleeps, the queue is no longer than pending notifies plus workers about to look again |
| PoolTheorems.QueuedWorkMoves | src/threadpool/ThreadPool.cpp:24-48 | a non-empty queue never leaves the pool at rest before stop |
| PoolTheorems.QuietPoolIsEmpty | src/threadpool/ThreadPool.cpp:32-48 | a pool at rest before stop has an empty queue, all workers asleep and no call under way |
| PoolTheorems.BoundedShutdown | src/threadpool/ThreadPool.cpp:14-48 | after stop no worker starts two more entries, so at most one per worker starts |
| PoolTheorems.StopMarkFixed | src/threadpool/ThreadPool.cpp:14-16 | the mark set when stop was stored never changes, and starts are only added |
| PoolTheorems.StopMarkIs | src/threadpool/ThreadPool.cpp:14-16 | the mark from which BoundedShutdown counts is the number of starts at the very step that stored stop |
| PoolTheorems.FinishedIsPrefix | src/threadpool/ThreadPool.cpp:14-48 | once all workers have left, the finished entries are exactly a prefix of what was enqueued |
| PoolTheorems.DestructorFinishesIff | src/threadpool/ThreadPool.cpp:14-48 | from notify_all on every run ends within a bound, and all end joined if and only if nobody sleeps or is about to, or a call under way is sure to wake who does |
| PoolTheorems.FinishesWithoutCalls | src/threadpool/ThreadPool.cpp:14-38 | with no call under way every run ends joined if no worker slept or was about to, and none does otherwise |
| PoolTheorems.NotifyDecides | src/threadpool/ThreadPool.cpp:15-37 | at notify_all it comes down to whether a worker is between predicate and wait, and whether a call has still to take the mutex |
| PoolTheorems.DestructorCanHang | src/threadpool/ThreadPool.cpp:15-37 | a run in which the destructor does wait for ever |
| ThreadPool.ThreadPool.constructor | src/threadpool/ThreadPool.cpp:8-12 | an empty pool at the start of a run, with all workers at the top of their loop |
| ThreadPool.ThreadPool.EnqueueTask | src/threadpool/ThreadPool.cpp:24-30 | the entry joins the back of the queue, one sleeping worker, if any, is woken, and the call is a run of the pool machine |
| ThreadPool.ThreadPool.Round | src/threadpool/ThreadPool.cpp:33-46 | a round, from the loop top or resumed from the wait, takes and executes the front entry, or leaves after stop, or sleeps over an empty queue; after stop only a resumed worker takes one |
| ThreadPool.ThreadPool.Stop | src/threadpool/ThreadPool.cpp:14-16 | stop is stored, every sleeper is woken, and the mark of started entries is set |
| ThreadPool.ThreadPool.WorkerThread | src/threadpool/ThreadPool.cpp:32-48 | a worker alone executes the whole queue in order and then sleeps; after stop it leaves, at once from the loop top and after at most one entry when resumed |
| FlowInvariant.NoStallStep | src/networkevent/SocketEventHandler.cpp:79-115 | no step of any thread, hang-ups, removals and failing reads of any connection included, leaves unread bytes without something that will read them, at a connection that has itself neither hung up nor had a failing read |
| FlowTheorems.NoStalledBytes | src/datatrasaction/server/TCPSocketHandler.cpp:51-107 | at a registered connection that has not hung up and has had no failing read, whatever the others do, unread bytes beyond the current reader's share imply an edge, a batch entry, a poller about to enqueue, a queue entry, or a worker before its snapshot |
| FlowTheorems.SnapshotIsKept | src/datatrasaction/server/TCPSocketHandler.cpp:51-55 | a reader under the socket mutex finds the bytes of its snapshot, so it never would block, unless the connection has been closed meanwhile; a call for a closed connection is taken to find nothing |
| FlowTheorems.AtRestAllRead | src/networkevent/SocketEventHandler.cpp:79-115 | when the server can make no step of its own, accepting apart, nothing is unread at any registered connection that has not hung up and has had no failing read, no thread has anything in hand, and the pool sleeps over an empty queue |
| FlowHangups.NoLostHangup | src/networkevent/SocketEventHandler.cpp:79-97 | a registered connection whose peer has hung up is closed, or has a pending edge, a hang-up entry in a batch, or a poller on its way to close it |
| FlowHangups.AtRestAllClosed | src/socket/server/TcpServerSocket.cpp:112-129 | when the server can make no step of its own, every registered connection whose peer has hung up has been closed |
| FlowCallbacks.RegistryExcludes | src/socket/server/TcpServerSocket.cpp:73-129 | one thread at a time is inside the registry mutex, a removing poller or the acceptor until its enqueuing is done |
| FlowCallbacks.ClosedForGood | src/socket/server/TcpServerSocket.cpp:112-129 | only a connection that has hung up is closed, and then nothing is unread there, no event is pending, its kind stays closed, and no poller has it in hand but to enqueue the news |
| FlowCallbacks.ClosedIsTold | src/socket/server/TcpServerSocket.cpp:112-158 | the closed callback of a closed connection has been chosen, or its entry is with its poller, being pushed, queued, or with a worker still testing |
| FlowCallbacks.AtRestAllTold | src/socket/server/TcpServerSocket.cpp:73-158 | when the server can make no step of its own, every registered connection has been given to a worker, and its closed callback has been chosen if and only if its peer has hung up |
| FlowCallbacks.PeekIff | src/socket/server/TcpServerSocket.cpp:147-150 | a worker gets to the data callback exactly by reading the kind as incoming data |
| FlowCallbacks.ToldIff | src/socket/server/TcpServerSocket.cpp:154-156 | the closed callback is chosen exactly by reading the kind as closed at the third comparison |
| FlowCallbacks.DoneIff | src/socket/server/TcpServerSocket.cpp:147-158 | a worker is done with an entry without the data callback exactly by reading the kind as new at the second comparison, or by coming to the third |
| FlowTheorems.EveryStepDrains | src/threadpool/ThreadPool.cpp:32-48 | every step of any thread but an arrival, hang-ups, removals and failing reads included, makes the measure smaller |
| FlowTheorems.Drains | src/datatrasaction/server/TCPSocketHandler.cpp:72-107 | a run without arrivals, whatever else happens in it, is no longer than the measure it starts with, and where the server cannot go on by itself everything has been read at every registered connection that has not hung up and has had no failing read |
| ServerCoreProof.InsideKeeps | src/socket/server/TcpServerSocket.cpp:73-129 | every move under the registry mutex keeps registry, interest sets, descriptors, handler pointers and SSL objects consistent |
| ServerCoreProof.MarkKeeps | src/networkevent/SocketEventHandler.cpp:104-115 | the poller's unlocked write of the kind is harmless wherever the thread inside the mutex is |
| ServerInvariantProof.InvStep | src/socket/server/TcpServerSocket.cpp:36-158 | the whole invariant of acceptor, pollers, workers and closer survives every step |
| ServerTheorems.ListedAgrees | src/networkevent/SocketEventHandler.cpp:45-68 | a connection in an interest set is open, in no other interest set, and the object stored under its own descriptor, but for the acceptor's gap before insertion |
| ServerTheorems.StoredAgrees | src/socket/server/TcpServerSocket.cpp:73-129 | an inserted connection that is open and will be closed is in the map and in its poller's interest set, except within its own removal |
| ServerTheorems.TcpMapIsOpen | src/socket/server/TcpServerSocket.cpp:36-42 | under TCP a map entry is open if and only if it is neither past its own close in removal nor visited by close-all |
| ServerTheorems.EarlyHangupIsSafe | src/socket/server/TcpServerSocket.cpp:112-121 | past its lock, removeSocket sees its own poller as handler and finds exactly this connection stored, open and listed |
| ServerTheorems.EraseIsOwn | src/socket/server/TcpServerSocket.cpp:117-128 | the erased entry is the removed connection's own, although its descriptor was closed before |
| ServerTheorems.InsertReplacesClosed | src/socket/server/TcpServerSocket.cpp:108 | an insert overwrites only a connection that is already closed and unlisted, and under TCP never overwrites |
| ServerTheorems.CloseOwnership | src/datatrasaction/server/TLSSocketHandler.cpp:18-86 | each close is made while the connection owns the descriptor, hence at most once; closed and owning exclude each other exactly |
| ServerTheorems.UserOwnsIff | src/datatrasaction/server/TCPSocketHandler.cpp:109-111 | inside a connection's socket mutex, a callback's descriptor number is that connection's if and only if the connection has not been closed |
| ServerTheorems.UserLosesIff | src/datatrasaction/server/TCPSocketHandler.cpp:109-111 | a step of any thread takes the descriptor from under a callback if and only if it is the close of that very connection by the thread inside the registry mutex |
| ServerTheorems.AskingIff | src/datatrasaction/server/TLSSocketHandler.cpp:88-101 | a callback asks for a connection's socket mutex, in whatever step, if and only if it is about to send or receive there and, under TLS, finds m_SSL non-null; with a null m_SSL the call returns |
| ServerTheorems.FreeAgainIff | src/threadpool/ThreadPool.cpp:32-48 | a worker is free again exactly when it found the queue empty or its callback has returned |
| ServerTheorems.TlsUserOwnsIff | src/datatrasaction/server/TLSSocketHandler.cpp:96-101 | a callback inside an inserted connection's mutex is there behind an m_SSL that was non-null at initConnection, and m_SSL is non-null now if and only if the descriptor is still the connection's own, that is, not closed |
| ServerTheorems.TlsUserUndisturbed | src/datatrasaction/server/TLSSocketHandler.cpp:141-171 | while a callback is inside an inserted connection's mutex, no step of any thread changes its m_SSL or the ownership of its descriptor |
| ServerTheorems.ClosedIff | src/socket/server/TcpServerSocket.cpp:36-42 | after close-all an inserted connection has been closed, exactly once, if and only if the handler is TCP or its m_SSL was not null at initConnection |
| ServerTheorems.KindForward | src/socket/server/TcpServerSocket.cpp:103-114 | no step of any thread moves a connection's kind back in new, data, closed |
| ServerTheorems.CallbackDelivered | src/socket/server/TcpServerSocket.cpp:147-158 | the data callback exactly when the first kind read is data, the new-connection callback exactly when the second is new, and only for a new-connection entry, the closed callback exactly when the third is closed, and then the connection is; none exactly for a new-connection entry that reads new, data, data |
| ServerTheorems.CallbackIsCurrent | src/socket/server/TcpServerSocket.cpp:147-158 | at the step that chooses it, the callback is the one for the kind the connection has then: new, closed, or data, where none is possible only after a first read of new |
| ServerTheorems.CallbackChosen | src/socket/server/TcpServerSocket.cpp:147-158 | the callback of a dequeued entry has been chosen, or exactly one worker is still choosing it |
| ServerTheorems.CallbackOnce | src/socket/server/TcpServerSocket.cpp:147-158 | the callback of an entry, once chosen, is never chosen again |
| ServerTheorems.TurnsAreRoundRobin | src/networkevent/EventScheduler.cpp:43-47 | in every run of all threads, call t of addSocket goes to poller t mod n, and any two pollers' shares differ by at most one |
| ServerTheorems.LockOrder | src/networkevent/EventScheduler.cpp:43-47 | a thread that holds one mutex and wants another wants one of higher rank |
| ServerTheorems.MutualExclusion | src/networkevent/SocketEventHandler.cpp:45-68 | no two threads hold the same mutex |
| ServerTheorems.DeadlockFree | src/socket/server/TcpServerSocket.cpp:36-129 | whenever a thread holds or wants a mutex, some such thread can step |
| ServerWitnesses.HangupBeforeHandler | src/networkevent/SocketEventHandler.cpp:51-56 | a run in which a poller holds a hang-up of a connection whose handler pointer is not yet written |
| ServerWitnesses.TlsLeak | src/datatrasaction/server/TLSSocketHandler.cpp:141-146 | a run of the TLS server after which an inserted connection is open although everything was closed |
| ServerWitnesses.NewTaskWithoutCallback | src/socket/server/TcpServerSocket.cpp:147-158 | a run in which a new-connection entry delivers no callback |
| ServerWitnesses.NumberReusedInside | src/datatrasaction/server/TCPSocketHandler.cpp:109-111 | a run of the TCP server with a callback inside connection 0's socket mutex while the descriptor number belongs to connection 1 |
| ServerWitnesses.NullSessionInside | src/datatrasaction/server/TLSSocketHandler.cpp:96-101 | a run of the TLS server in which a callback finds m_SSL non-null, asks for the mutex, and is then inside it with m_SSL null |
| TcpServerSocket.TcpServerSocket.constructor | src/socket/server/TcpServerSocket.cpp:12-18 | an empty registry, at the start of a run of the machine |
| TcpServerSocket.TcpServerSocket.HandleIOEvent | src/socket/server/TcpServerSocket.cpp:73-110 | the fields after every outcome of accept, conversion, certificate, handshake and epoll_ctl; the call is a run of the machine |
| TcpServerSocket.TcpServerSocket.InitConnection | src/datatrasaction/server/TLSSocketHandler.cpp:18-86 | nothing without an SSL object; otherwise a new one, or the descriptor is closed and the pointer null |
| TcpServerSocket.TcpServerSocket.AddSocket | src/networkevent/EventScheduler.cpp:43-47 | the next poller in turn lists the connection and becomes its handler, if epoll takes it |
| TcpServerSocket.TcpServerSocket.RemoveSocket | src/socket/server/TcpServerSocket.cpp:112-129 | the handler is never null here; kind, interest set, descriptor, map and queue end as one removal of the machine leaves them |
| TcpServerSocket.ShutIsOwn | src/datatrasaction/server/TLSSocketHandler.cpp:141-171 | while everything is closed, closing one stored connection takes the descriptor from that connection and from no other, whatever numbers have been reused |
| TcpServerSocket.TcpServerSocket.HandleEvent | src/networkevent/SocketEventHandler.cpp:104-115 | the kind becomes data and one queue entry is added |
| TcpServerSocket.TcpServerSocket.HandleCallBackEvent | src/socket/server/TcpServerSocket.cpp:147-158 | with nobody writing the kind, the callback is the one for it; the call is a run of the machine from the worker's first comparison to its callback |
| TcpServerSocket.TcpServerSocket.PollOnce | src/networkevent/SocketEventHandler.cpp:79-97 | a batch leaves one queue entry per event in batch order, hung-up connections removed everywhere, the others marked, and nothing else changed |
| TcpServerSocket.TcpServerSocket.CloseAllClientSocket | src/socket/server/TcpServerSocket.cpp:36-42 | in any order of the map: it ends empty, and exactly the inserted connections their handler closes have lost their descriptor |
| RegistryRuns.AdmittedFacts | src/socket/server/TcpServerSocket.cpp:102-109 | what the steps from kind to map leave in all fields, by outcome of handshake and epoll_ctl |
| RegistryRuns.RemovedFacts | src/socket/server/TcpServerSocket.cpp:112-128 | removal takes the connection out of map, its own interest set and, if it is closable, the descriptor table, and nothing else |
| BatchService.ServedNext | src/networkevent/SocketEventHandler.cpp:85-94 | serving one more entry extends the effect of the batch by exactly that entry |
| EventScheduler.EventScheduler.constructor | src/networkevent/EventScheduler.cpp:9-16 | distinct pollers with empty interest sets, no call made yet |
| EventScheduler.EventScheduler.AddSocket | src/networkevent/EventScheduler.cpp:43-47 | the turn goes to the next poller modulo n, which alone changes, and the round-robin record is kept |
| EventScheduler.EventScheduler.RemoveSocket | src/networkevent/SocketEventHandler.cpp:60-68 | only the named poller forgets the descriptor, and it reports whether it had it |
| EventScheduler.ShareOf | src/networkevent/EventScheduler.cpp:43-47 | after k calls poller j was given exactly the calls t in 1..k with t mod n = j |
| EventScheduler.SharesBalanced | src/networkevent/EventScheduler.cpp:43-47 | any two pollers' shares differ by at most one |
| TcpTransfer.SendData | src/datatrasaction/server/TCPSocketHandler.cpp:21-47 | the kernel gets one contiguous prefix: as many bytes as the answers used offer, taken together, and the whole once that covers it or no answers are left; no answer is used beyond that; -1 and 0 exactly behind a failing or an empty send |
| TcpTransfer.ReceivePartialData | src/datatrasaction/server/TCPSocketHandler.cpp:72-107 | appends the next stream bytes in order, as many as wanted or all there are; no answer is used once those before give everything or one found the buffer empty; -1 exactly when the last answer used fails, appending nothing and losing exactly what the answers before it gave |
| TcpTransfer.GotOfBuffered | src/datatrasaction/server/TCPSocketHandler.cpp:72-107 | when everything wanted is buffered, what the answers give is the sum of what they offer, up to what is wanted |
| TcpTransfer.ReceiveData | src/datatrasaction/server/TCPSocketHandler.cpp:51-70 | appends exactly what FIONREAD reported, however the reads are cut up, using no answer beyond that, and returns -1, appending nothing, exactly when the last answer used is a failing read; a failed FIONREAD asks for a size that cannot be had |
| TcpTransfer.SplitRead | src/datatrasaction/server/TCPSocketHandler.cpp:72-107 | reading a bytes and then b bytes gives the bytes and the stream position of reading a + b |
| TcpTransfer.HandleIOTask | src/IOWorkerThread/IOWorkerThreadHandler.cpp:25-33 | whatever FIONREAD reports, the first read gives the next 4 bytes or, if there are fewer, all of them; the second size is negative exactly when FIONREAD fails or reports less than 4; each read uses the answers a read of its size uses and returns -1 exactly when the last of them fails; if neither fails the strings are together all that was buffered |
| TlsTransfer.ReceiveData | src/datatrasaction/server/TLSSocketHandler.cpp:96-139 | r >= 0 appends exactly the next r stream bytes, 1000 for each answer used but the last and what that one offers of 1000; -1, without a session or behind a failure, leaves data as it was, with exactly the full buffers before the failure gone from the stream; bytes are left otherwise only behind an answer that stops the loop |
| TlsTransfer.ReceivePartialData | src/datatrasaction/server/TLSSocketHandler.cpp:174-220 | the same with at most dataSize bytes, for any dataSize, fewer only at the end of the stream or behind an answer that stops the loop |
| StreamMachine.SendAtomicity | src/datatrasaction/server/TCPSocketHandler.cpp:21-47 | with any number of concurrent senders the accepted bytes are one contiguous prefix per call in lock order, whole exactly when the call returned its length |
| StreamMachine.EndToEnd | src/datatrasaction/server/TCPSocketHandler.cpp:21-107 | what is received is a prefix of what was accepted for sending, as long as no failed receive had read anything; only calls for this connection use its descriptor |
| StreamMachine.ReceivedInPlaceIff | src/datatrasaction/server/TCPSocketHandler.cpp:72-107 | each finished receive had read the next bytes of the sent stream and a successful one appended exactly them; the two places agree if and only if no earlier failed receive had read anything; only calls for this connection use its descriptor |
| StreamMachine.ReceivedIff | src/datatrasaction/server/TCPSocketHandler.cpp:72-107 | what was read is what all finished receives had read, in lock order, and the current buffer; what was received is the same without the failed ones; so between calls all was received if and only if the failed ones had read nothing |
| StreamMachine.FailedReceiveLeavesGap | src/datatrasaction/server/TCPSocketHandler.cpp:85-89 | a run in which a failed receive makes the received bytes no prefix of the sent ones |
| StreamRuns.Send | src/datatrasaction/server/TCPSocketHandler.cpp:21-47 | a call of sendData is a run of the stream machine that adds one finished call, with the accepted prefix that the answers decide and the result of the send loop |
| StreamRuns.Receive | src/datatrasaction/server/TCPSocketHandler.cpp:51-107 | a call of receiveData is a run of the stream machine that adds one finished call, with the bytes the read loop took and its result, what arrived meanwhile coming off the wire |

## Left out

- Socket creation, bind, listen, connect, name resolution, descriptor flags and the client classes: operating system plumbing.
- OpenSSL: certificates, the handshake itself and SSL_write are not modelled; the handshake is its success or failure.
- Lifetime of connection objects: `removeSocket` enqueues a raw pointer and then erases its owner. Connections here have identities and live for ever; nothing is claimed about dangling pointers.
- Termination of the pool's destructor without conditions: it fails for some states at `notify_all`; `DestructorFinishesIff` says which. New calls and spurious wakeups after that are not counted on.
- Acceptance of every pending connection: `handleIOEvent` accepts once per edge of an edge-triggered listener.
- Draining under TLS: `receiveData` stops at any short read, so the no-stall theorem is about TCP.
- FlowTheorems.NoStalledBytes: promises nothing for a connection that has itself hung up or had a failing read; what arrived with a hang-up can still be unread when the code closes the connection.
- FlowTheorems.SnapshotIsKept: descriptor numbers are not part of `FlowMachine`, so that a call for a closed connection could meet another connection's bytes is shown in `ServerMachine` only.
- FlowTheorems.Drains: the numbers of interruptions and spurious wakeups are arbitrary but finite.
- ThreadPool.ThreadPool.EnqueueTask: the class methods run one caller at a time; interleavings are in `PoolMachine`.
- TcpServerSocket.TcpServerSocket.HandleIOEvent: the class methods run while acceptor and pollers rest and no worker holds a mutex they take; interleavings are in `ServerMachine`.
- ServerTheorems.DeadlockFree: notification of the pool is abstracted there, a waiting worker is idle; the condition variable is in `PoolMachine`.
- TcpServerSocket.TcpServerSocket.RemoveSocket: the record of close calls is a field of the machine, not of the class.
- `closeServerSocket`: the descriptor it looks at, `m_serverSocketID`, is never assigned anywhere in the program.
- A connection whose address conversion fails stays open in the kernel, owned and never stored; it is in the model, and no theorem promises its close.
- The pollers' `closeEpoll` racing with stopping, the stop flag of pollers, and joining of their threads.
- The default function of `IOWorkerThreadHandler`, replaced before use, and `setTaskFunction` itself.
- Integer overflow for sizes of 2^31 bytes and more.
- Logging, timing in `main.cpp`, and the empty files.
