# CxxServer: sessions, server and clients as verified state machines

CxxServer is an event-driven TCP and SSL library. What is hard in it is not the sockets but the handlers around
them: a send pipeline with two buffers and a lock, a receive loop whose buffer grows, an accept chain that must
survive stop and start, and connection flags that several asynchronous operations share. This project models
those state machines and proves what they keep over every run.

The socket is an environment. A read or write is requested, and some time later the environment takes or
produces some bytes, with or without an error, and the completion handler runs. Everything the environment, the
scheduler and other threads may do is a label of a transition system; theorems quantify over all label sequences.

## Layout

| file | content |
|---|---|
| SessionCore.dfy | the state of a session and the effect of each fragment of its handlers |
| Interleaving.dfy | one session under every interleaving of producers, its I/O thread and the socket; the invariant |
| Delivery.dfy | theorems over runs: FIFO, no lost wake-up, stable in-flight memory, counters, limits, receiving |
| Drain.dfy | termination of a run with no new sends |
| Echo.dfy | the receive loop composed with the send pipeline |
| ClientPipeline.dfy | the TCP client's pipeline against the session's, and exactly when it goes wrong |
| AtomicSession.dfy | whole handlers as single steps, each proved to be an uninterrupted run of Interleaving |
| SendPipeline.dfy, TcpSession.dfy, TcpClient.dfy | the objects, updated in place |
| ServerMachine.dfy | the server, its FIFO queue and all its sessions |
| HangUp.dfy | when a session disconnects, and what is left of it |
| ServerAccept.dfy, ServerLife.dfy, ServerTotals.dfy | accept chain, life cycle, byte totals |
| ServerRequests.dfy | start, stop, leaving and handshakes, decided by the steps of the run |
| ServerSessions.dfy, ServerCasts.dfy | every session's invariant and wake-ups inside the server, multicast |
| TcpServer.dfy | the server object, updated in place |
| SslClientMachine.dfy, SslClientFate.dfy, SslClient.dfy | the SSL client's flags and operations; what becomes of its connections; the object |
| RoundRobin.dfy, HandlerMemory.dfy, Itoa.dfy | service choice, handler allocator, number formatting |

## Assumptions

- The handlers of one object are serialised. This is what the service's construction provides: without a strand
  each I/O service has at most one thread (`RoundRobin.Service.Start`).
- In Interleaving a producer's readiness check, its locked append and its dispatch are three steps, and each
  unlocked write of the I/O thread to shared data is a step of its own. Handlers waiting on the I/O service are
  unordered there, so the results do not depend on the order in which they are picked up. A callback that calls
  back into `sendAsync` runs `trySend` nested, as `dispatch` does on that thread; this includes `onErr` before a
  disconnect. The `onErr` of a refused send runs under the send lock and does not send.
- The server machine uses one I/O thread with a FIFO queue for posted handlers; completions of session reads,
  writes and handshakes may run at any time. An API call checks and posts in one step. Closing the acceptor or a
  stream queues the aborted completions at once. Any session may be given send and receive limits at any time;
  only the multicast results exclude send limits. Callbacks of the server machine do not call back.
- `onReceive` does not call `receiveAsync`. `Delivery.ReentrantReceiveIsStale` says exactly when it would matter.
- Memory accesses are sequentially consistent.

## Where the code departs from its evident intent

- `Client::trySend` requests its write from the start of the flush buffer whatever the offset is. In every run, all
  its requests are for the next bytes to be sent if and only if each was made with the offset at 0
  (`ClientPipeline.RightExactlyFromZero`). Seen at a completion: an error-free write is followed by a right request
  if and only if it took the whole flush buffer (`ClientPipeline.CompletionDecides`,
  `ClientPipeline.NextCompletionDecides`), so the client is faithful in every run whose writes finish whole
  (`ClientPipeline.WholeRunsAreFaithful`). A new client that sends one buffer whose write finishes in part sends
  bytes twice (`ClientPipeline.ClientRepeatsItself`).
- `Server::stop` empties the slot that an already queued successful accept dereferences. Without that coincidence
  the server never crashes (`ServerAccept.AcceptChain`); with it, it crashes as soon as that completion is reached
  (`ServerAccept.HazardDooms`, `ServerAccept.DoomedRun`). A new server gets there in six steps
  (`ServerAccept.StopCanCrash`).
- `SSL::Client` stays consistent only if `onConnect` does not disconnect
  (`SslClientMachine.OnConnectMustNotDisconnect`). A synchronous connect whose handshake fails leaves the client
  marked connected (`SslClientMachine.BadHandshakeStaysConnected`), and one that overtakes a queued teardown of
  the previous connection is torn down by it (`SslClientMachine.OvertakingIsTheOnlyWay`).
- A producer that passed the readiness check may append after the disconnect handler cleared the buffers. Nothing is
  in flight ever after (`HangUp.DownForGood`), so those bytes stay where they are.
- When `SSL::Client::disconnectAsync` runs, each transfer it aborts starts a further shutdown; the first completion
  disconnects all the same (`SslClientFate.DisconnectAsyncCompletes`).
- `Client::connectAsync` calls `onConnect` twice (`TcpClient.Client.ConnectCompleted`).
- include/core/tcp/tcp_session.hxx:137 says that reaching the send limit disconnects. The code only rejects the
  send, and the model follows the code (`Delivery.RejectionChangesNothing`).

## Model

| member | source | states |
|---|---|---|
| Interleaving.InitOk | source/core/tcp/tcp_session.cxx:68-88 | a session that has just connected, TCP or SSL, satisfies the invariant |
| Interleaving.NextOk | source/core/tcp/tcp_session.cxx:202-424 | every step of any producer, of the I/O thread, of a callback or of the socket keeps the whole invariant |
| Interleaving.ControlNextOk | source/core/tcp/tcp_session.cxx:213-240 | whoever appends without waking the I/O side leaves a handler that is bound to look at both buffers later |
| Delivery.RunStreams | source/core/tcp/tcp_session.cxx:202-243 | accepted, written and read histories equal the streams read off the run's labels, where "written" counts the bytes as they were when the write was requested |
| Delivery.FirstInFirstOut | source/core/tcp/tcp_session.cxx:362-415 | in every run the bytes taken by the socket are a prefix of the buffers accepted, in order; while connected the rest is exactly what is buffered: nothing lost, doubled or reordered |
| Delivery.NoLostWakeUp | source/core/tcp/tcp_session.cxx:213-240 | a ready session with any byte not yet taken has a write outstanding, a handler bound to `trySend` or to disconnect, or a `trySend` posted or about to be |
| Delivery.OneAtATime | source/core/tcp/tcp_session.cxx:321-384 | a read or write is only requested when none is outstanding |
| Delivery.InFlightMemoryIsStable | source/core/tcp/tcp_session.cxx:381-414 | from a write request to its completion handler the memory it points at keeps the requested bytes, and `_sending` holds |
| Delivery.CountersAreExact | source/core/tcp/tcp_session.cxx:389-400 | pending and in-flight counters equal the buffer lengths in every reachable state, so the unsigned subtraction never wraps |
| Delivery.SendLimitBounds | source/core/tcp/tcp_session.cxx:218-226 | with a fixed positive limit the main buffer stays within it and all buffered bytes within twice it |
| Delivery.RejectionChangesNothing | source/core/tcp/tcp_session.cxx:218-221 | a send, by a producer or inside a callback, is refused if and only if it would overrun a set limit, and then no buffer, counter or wake-up changes |
| Delivery.ReceiveBufferGrowth | source/core/tcp/tcp_session.cxx:339-347 | with k the number of full reads the session survived in the run, the buffer is the initial size times 2^k, within a fixed limit, and k is at most the number of doublings that fit |
| Delivery.MaxDoublings | source/core/tcp/tcp_session.cxx:340-346 | the bound is the integer logarithm: that many doublings fit under the limit and one more does not |
| Delivery.FullReadAtTheLimit | source/core/tcp/tcp_session.cxx:339-352 | a full read disconnects exactly when the doubled buffer would exceed a set limit; otherwise the next read has the doubled buffer |
| Delivery.ReceivedInOrder | source/core/tcp/tcp_session.cxx:327-357 | chunks handed to `onReceive` concatenate to the bytes the socket produced, less at most the one not yet handled; at most one read is outstanding while connected |
| Delivery.NoLostRead | source/core/tcp/tcp_session.cxx:321-360 | in every run a ready session has a read requested or finished, or a handler on its I/O thread that will read again or disconnect; idle, it is reading |
| Delivery.ReadOnRequest | source/core/tcp/tcp_session.cxx:317-326 | asking to receive in a callback leaves a ready session with a read of its whole buffer out |
| HangUp.HangsUpExactlyWhenTold | source/core/tcp/tcp_session.cxx:90-133 | in every run a session is down or has a disconnect coming if and only if a call, a failed transfer or handshake, or a chunk over the limit told it to |
| HangUp.DownForGood | source/core/tcp/tcp_session.cxx:95-104 | a session that is down has both flags off, and once its handler ended nothing is in flight ever after |
| Delivery.ReentrantReceiveIsStale | source/core/tcp/tcp_session.cxx:337-352 | a read armed inside `onReceive` is left with a reallocated buffer exactly when the chunk filled the buffer and it may grow |
| Drain.DrainTerminates | source/core/tcp/tcp_session.cxx:362-415 | with no new sends, no errors and positive completions every run is finite and takes at most one write per unsent byte; from a session on which nothing has failed, when nothing more can happen it is still ready, all is on the wire, both buffers are empty and `onEmpty` came last |
| Drain.HealthyRun | source/core/tcp/tcp_session.cxx:362-415 | a ready session on which nothing has failed stays so while it drains |
| Drain.EachWriteShrinks | source/core/tcp/tcp_session.cxx:389-400 | each finished write shrinks the unsent bytes by what it took |
| Drain.Progress | source/core/tcp/tcp_session.cxx:362-379 | a ready session that can take no internal step has an idle I/O thread and nothing outstanding |
| Echo.EchoesFaithfully | performance/echo_tcp_server.cxx:18 | an echo session's wire is a prefix of what it was handed and of what its peer sent; with no write outstanding and an idle I/O thread it has echoed all of it |
| ClientPipeline.RequestsAgree | source/core/tcp/tcp_client.cxx:494 | the client requests the session's bytes if and only if the flush offset is 0 |
| ClientPipeline.RightExactlyFromZero | source/core/tcp/tcp_client.cxx:444-494 | in every client run all requests ask for the next bytes to be sent if and only if each was made with the flush offset at 0 |
| ClientPipeline.CompletionDecides | source/core/tcp/tcp_client.cxx:466-494 | after an error-free write the handler's next request is right if and only if the write took the whole flush buffer; after a partial one it does request |
| ClientPipeline.NextCompletionDecides | source/core/tcp/tcp_client.cxx:466-494 | so in every run whose writes were whole so far, the next completion is handled rightly if and only if it is whole too |
| ClientPipeline.FromZeroRunsAreSessionRuns | source/core/tcp/tcp_client.cxx:404-495 | a client run that requests only from offset 0 is step by step a session run |
| ClientPipeline.WholeRunsAreSessionRuns | source/core/tcp/tcp_client.cxx:404-495 | a client run whose positive completions cover the whole flush buffer is step by step a session run |
| ClientPipeline.WholeRunsAreFaithful | source/core/tcp/tcp_client.cxx:444-495 | in such runs every request is right, the client's wire is a prefix of what it accepted, and the rest is buffered |
| ClientPipeline.PartialWriteDuplicates | source/core/tcp/tcp_client.cxx:466-494 | a partial completion and a full one put the part on the wire twice and drive the in-flight counter below zero; the wire is then a prefix of the accepted bytes if and only if the bytes to come read the same |
| ClientPipeline.ClientRepeatsItself | source/core/tcp/tcp_client.cxx:404-494 | a run from a new connection that reaches this: the peer is sent the first part of the only buffer twice |
| AtomicSession.FinishIsARun | source/core/tcp/tcp_session.cxx:362-415 | running a handler to its end is a sequence of I/O-thread steps of the interleaving machine |
| AtomicSession.WriteDoneIsARun | source/core/tcp/tcp_session.cxx:383-412 | the atomic write completion, with its nested `trySend` or disconnect, is the uninterrupted run of its fragments |
| AtomicSession.ReadDoneIsARun | source/core/tcp/tcp_session.cxx:327-357 | the atomic read completion, with its re-arming, is the uninterrupted run of its fragments |
| AtomicSession.SendAsyncIsARun | source/core/tcp/tcp_session.cxx:202-243 | the atomic send of a ready session is a producer's whole run: it appends exactly when the data fits the limit, and wakes exactly when a buffer was empty |
| AtomicSession.TrySendIsARun | source/core/tcp/tcp_session.cxx:362-415 | the atomic `trySend` is the uninterrupted run of its fragments |
| AtomicSession.DisconnectedIsARun | source/core/tcp/tcp_session.cxx:95-117 | the atomic disconnect handler is the uninterrupted run of its fragments |
| AtomicSession.HandshakeDoneIsARun | source/core/tcp/ssl_session.cxx:47-77 | the atomic handshake completion is the uninterrupted run of its fragments, with the disconnect it posts |
| AtomicSession.ConnectedIsInit | source/core/tcp/tcp_session.cxx:68-88 | connecting a new session leads to the state runs start from: connected, with its limits, and reading at once unless it awaits a handshake |
| AtomicSession.WriteOutcome | source/core/tcp/tcp_session.cxx:383-412 | a write completion takes a ready session down exactly when it failed, and otherwise requests what is left |
| AtomicSession.ReadOutcome | source/core/tcp/tcp_session.cxx:327-357 | a read completion delivers, takes a ready session down exactly on an error or a chunk over the limit, and otherwise reads on |
| AtomicSession.TrySendOk | source/core/tcp/tcp_session.cxx:362-415 | the atomic `trySend` keeps the session invariant and leaves nothing to wake up for |
| AtomicSession.SendAsyncOk | source/core/tcp/tcp_session.cxx:202-243 | `sendAsync` keeps the invariant if the wake-up it asks for is queued |
| AtomicSession.DisconnectedOk | source/core/tcp/tcp_session.cxx:95-104 | the atomic disconnect handler keeps the session invariant, by which a session that is down keeps no byte and no flag |
| SendPipeline.Pipeline.constructor | source/core/tcp/tcp_session.cxx:22-29 | a new pipeline is empty and idle |
| SendPipeline.Pipeline.Append | source/core/tcp/tcp_session.cxx:213-230 | accepts exactly within the limit and then appends and counts, and asks for a wake-up exactly when one of the buffers was empty |
| SendPipeline.Pipeline.TrySend | source/core/tcp/tcp_session.cxx:366-414 | swaps only an empty flush buffer, then either reports empty or requests the rest of the flush buffer |
| SendPipeline.Pipeline.SwapBuffers | source/core/tcp/tcp_session.cxx:367-373 | exchanges the buffers and moves the count from pending to in flight |
| SendPipeline.Pipeline.Settle | source/core/tcp/tcp_session.cxx:389-400 | accounts for the written bytes and empties a fully written flush buffer |
| SendPipeline.Pipeline.ClearBuffs | source/core/tcp/tcp_session.cxx:417-424 | empties both buffers and zeroes the counters, keeping the total sent |
| TcpSession.Session.constructor | source/core/tcp/tcp_session.cxx:15-30 | a new session is unconnected and empty |
| TcpSession.Session.Connect | source/core/tcp/tcp_session.cxx:68-88 | resets counters, sizes the receive buffer, marks the session connected and, if ready, requests one read |
| TcpSession.Session.HandshakeCompleted | source/core/tcp/ssl_session.cxx:47-77 | a successful handshake opens the gate for sending and receiving once; a failed one of a connected session posts a disconnect |
| TcpSession.Session.SetSendBuffLimit | include/core/tcp/tcp_session.hxx:140 | sets the send limit and nothing else |
| TcpSession.Session.SetReceiveBuffLimit | include/core/tcp/tcp_session.hxx:134 | sets the receive limit and nothing else |
| TcpSession.Session.SendAsync | source/core/tcp/tcp_session.cxx:202-243 | returns true exactly when the session is ready and the data is empty or within the limit; data it returns true for is appended and counted, and otherwise nothing changes |
| TcpSession.Session.TrySend | source/core/tcp/tcp_session.cxx:362-415 | is the atomic `trySend` step, and nothing while a write is out or the session is not ready |
| TcpSession.Session.WriteCompleted | source/core/tcp/tcp_session.cxx:383-412 | is the atomic write completion whose runs the other modules prove about |
| TcpSession.Session.TryReceive | source/core/tcp/tcp_session.cxx:321-360 | requests one read of the whole buffer unless one is out or the session is not ready |
| TcpSession.Session.ReadCompleted | source/core/tcp/tcp_session.cxx:327-357 | is the atomic read completion: deliver, grow or disconnect, re-arm |
| TcpSession.Session.DisconnectHandler | source/core/tcp/tcp_session.cxx:95-107 | drops the flags and clears the buffers once |
| TcpClient.Client.ConnectHandler | source/core/tcp/tcp_client.cxx:130-134 | starts a connect only when neither connected nor connecting |
| TcpClient.Client.ConnectCompleted | source/core/tcp/tcp_client.cxx:135-165 | on success `onConnect` is called twice, around the start of reading; on an error only `onDisconnect` |
| TcpClient.Client.SendAsync | source/core/tcp/tcp_client.cxx:404-438 | appends and counts what it accepts as the session does, but also refuses empty data |
| TcpClient.Client.WriteCompleted | source/core/tcp/tcp_client.cxx:466-492 | has the session's effect on the pipeline of a client, except that a failed write does not disconnect a client that is connecting |
| TcpClient.Client.DisconnectAsync | source/core/tcp/tcp_client.cxx:201-224 | disconnects at once on the I/O thread, unless unconnected or connecting |
| TcpClient.Client.Disconnect | source/core/tcp/tcp_client.cxx:183-199 | clears flags and buffers and tells `onDisconnect`, once |
| ServerAccept.AcceptNext | source/core/tcp/tcp_server.cxx:99-212 | every step but the hazardous stop keeps the accept chain: one accept while started, none for a stopped server except an aborted one ahead of any start |
| ServerAccept.AcceptChain | source/core/tcp/tcp_server.cxx:179-212 | in every run without that hazard there is no crash, at most one accept is outstanding or queued, exactly one while started, and a successful accept registers and connects the session whose socket was accepted, whatever limits sessions have |
| ServerAccept.HazardDooms | source/core/tcp/tcp_server.cxx:140-159 | a stop that takes effect with a successful accept queued leaves that accept ahead of any start, with the slot empty |
| ServerAccept.DoomedRun | source/core/tcp/tcp_server.cxx:190-193 | from then on the server crashes if and only if the I/O thread gets as far as that accept, whatever else happens |
| ServerAccept.StopCanCrash | source/core/tcp/tcp_server.cxx:140-193 | a run of a new server that meets the hazard and crashes |
| ServerLife.LifeNext | source/core/tcp/tcp_session.cxx:90-133 | every safe step keeps: registered iff connected, the callback history of each session, and a queued disconnect for each session left over by a stop |
| ServerLife.StartIsClean | source/core/tcp/tcp_server.cxx:105-130 | when a start takes effect no session of an earlier cycle is registered |
| ServerLife.SessionLifecycle | source/core/tcp/tcp_server.cxx:233-272 | in every safe run each session hears `onConnect` once and `onDisconnect` at most once and later, the registry is the set of connected sessions, connects minus disconnects is its size, and a stopped server with a drained queue has none |
| ServerRequests.QueueGrows | source/core/tcp/tcp_server.cxx:132-166 | what each call, completion and accept posts, behind everything already queued |
| ServerRequests.StartedExactlyWhenAsked | source/core/tcp/tcp_server.cxx:99-167 | in every safe run, once the queue is drained, the server is started if and only if start was the last request accepted |
| ServerRequests.StopTurnsOut | source/core/tcp/tcp_server.cxx:145-159 | a stop that takes effect leaves the aborted accept and a disconnect of every connected session queued |
| ServerRequests.LeavesExactlyWhenTold | source/core/tcp/tcp_server.cxx:233-253 | in every safe run an accepted session stays connected until something tells it to leave, and then leaves: with the queue drained it is connected if and only if never told |
| ServerRequests.NoSessionForgotten | source/core/tcp/ssl_session.cxx:45-77 | a connected session that is not ready has its handshake outstanding or a disconnect queued |
| ServerRequests.LimitsAreSet | include/core/tcp/tcp_session.hxx:134-140 | setting the limits sets them and changes nothing else |
| ServerTotals.CohortIsAccepted | source/core/tcp/tcp_server.cxx:105-126 | the cohort is the sessions whose accept succeeded since the last start that took effect, read off the run's steps |
| ServerTotals.TotalsNext | source/core/tcp/tcp_session.cxx:389-393 | every safe step keeps the server totals equal to the sums over the cohort |
| ServerTotals.TotalsAreSums | source/core/tcp/tcp_server.cxx:123 | in every safe run bytes sent and received are the sums of the counters of all sessions accepted since the last start that took effect, gone ones included, and 0 right after it |
| ServerCasts.CastsAreIssued | source/core/tcp/tcp_server.cxx:214-231 | the multicasts carried out are those read off the run's steps |
| ServerCasts.EverythingSentIsAccepted | source/core/tcp/tcp_server.cxx:227-228 | in every safe run, with any sends, multicasts and limits, a session accepts exactly what was sent to it while it was ready and fitted, in order, and all of it reaches the socket |
| ServerCasts.ReadySessionsHearAll | source/core/tcp/tcp_server.cxx:225-228 | in any stretch of only multicasts, every session ready throughout accepts exactly the multicasts of the stretch |
| ServerCasts.MulticastWindows | source/core/tcp/tcp_server.cxx:214-231 | with only multicasts and no send limit a session accepts exactly the multicasts of the run between becoming ready and leaving, in order; its wire is a prefix of them, and all of them when it is ready with no write out and no `trySend` queued |
| ServerCasts.MulticastAgreement | source/core/tcp/tcp_server.cxx:225-228 | any two sessions accepted the same bytes for any range of the run's multicasts issued while both were ready |
| ServerSessions.AllOkNext | source/core/tcp/tcp_server.cxx:179-231 | every session of the server keeps its own invariant through every server step, with its wake-up being its `trySend` in the server's queue |
| ServerSessions.NoSessionSleeps | source/core/tcp/tcp_session.cxx:213-240 | in every safe run a ready session with unsent bytes has a write out or its `trySend` queued, a ready session has a read out, and a session that is down keeps no byte and no flag |
| TcpServer.Server.Start | source/core/tcp/tcp_server.cxx:99-138 | posts a start handler exactly when not started |
| TcpServer.Server.StartHandler | source/core/tcp/tcp_server.cxx:105-130 | when the server is not started, zeroes the totals, marks it started and puts a fresh session at the acceptor |
| TcpServer.Server.Stop | source/core/tcp/tcp_server.cxx:140-167 | posts a stop handler exactly when started |
| TcpServer.Server.StopHandler | source/core/tcp/tcp_server.cxx:145-159 | aborts the accept, empties the slot and posts a disconnect for each connected session |
| TcpServer.Server.AcceptNext | source/core/tcp/tcp_server.cxx:179-212 | puts a fresh session in the slot and hands its socket to the acceptor, only while started |
| TcpServer.Server.AcceptCompleted | source/core/tcp/tcp_server.cxx:190-200 | registers and connects the session in the slot, or fails on an empty slot, and accepts again |
| TcpServer.Server.RegisterSession | source/core/tcp/tcp_server.cxx:262-266 | the session is registered and connected, with its `onConnect` |
| TcpServer.Server.DisconnectSession | source/core/tcp/tcp_session.cxx:95-117 | a connected session is disconnected, told so and unregistered; any other is left alone |
| TcpServer.Server.DisconnectAll | source/core/tcp/tcp_server.cxx:238-245 | the loop posts a disconnect for exactly the connected sessions, in registry order |
| TcpServer.Server.Multicast | source/core/tcp/tcp_server.cxx:214-231 | a started server appends the data to every registered ready session it fits and touches no other, with the wake-ups they need |
| TcpServer.Server.SendToAll | source/core/tcp/tcp_server.cxx:227-228 | the loop gives each visited session the data once |
| SslClientMachine.NextOk | source/core/tcp/ssl_client.cxx:56-234 | every API call, completion and handler keeps flags and operations consistent, unless `onConnect` disconnects |
| SslClientMachine.ConnectionMachine | source/core/tcp/ssl_client.cxx:150-234 | handshaked implies connected and neither connecting nor handshaking, handshaking implies connected, and at most one connect or handshake is outstanding, exactly when a flag says so |
| SslClientMachine.OnConnectMustNotDisconnect | source/core/tcp/ssl_client.cxx:173-177 | a successful connect leaves the flags consistent if and only if `onConnect` did not disconnect |
| SslClientMachine.DisconnectEnablesConnect | source/core/tcp/ssl_client.cxx:56-66 | a disconnect that goes through clears all four flags, so `connectAsync` posts again; one that is refused while connected is refused because of a running handshake |
| SslClientMachine.BadHandshakeStaysConnected | source/core/tcp/ssl_client.cxx:130-139 | a synchronous connect leaves the client connected without a handshake exactly when the handshake failed, and `connectAsync` then does nothing |
| SslClientMachine.NoStaleTeardown | source/core/tcp/ssl_client.cxx:68-103 | in every orderly run a queued disconnect, shutdown completion or failed transfer belongs to the current connection |
| SslClientMachine.OvertakingIsTheOnlyWay | source/core/tcp/ssl_client.cxx:105-148 | a synchronous connect keeps that exactly when no such handler was still queued |
| SslClientMachine.OvertakingTearsDown | source/core/tcp/ssl_client.cxx:105-148 | a concrete run in which a leftover disconnect shuts down the next connection |
| SslClientFate.ConnectionsLastUntilTold | source/core/tcp/ssl_client.cxx:56-234 | in every orderly run a connection lasts until something tells the client to leave it; at rest every requested connect has its result, and the client is connected if and only if its last connection was not told to leave |
| SslClientFate.ShutdownDisconnects | source/core/tcp/ssl_client.cxx:80-82 | a shutdown completion clears all four flags, and connectAsync posts again |
| SslClientFate.DisconnectAsyncCompletes | source/core/tcp/ssl_client.cxx:68-103 | an asynchronous disconnect of any connected and handshaked client, from call to completion, clears all four flags |
| SslClientFate.ConnectAsyncCompletes | source/core/tcp/ssl_client.cxx:150-234 | an asynchronous connect of any idle client, from call to handshake, ends connected and handshaked |
| SslClient.Client.Disconnect | source/core/tcp/ssl_client.cxx:56-66 | refused while connecting or handshaking; otherwise flags and stream are reset |
| SslClient.Client.DisconnectAsync | source/core/tcp/ssl_client.cxx:68-103 | posts a handler under the same guard |
| SslClient.Client.DisconnectHandler | source/core/tcp/ssl_client.cxx:73-87 | cancels the transfers and starts one shutdown |
| SslClient.Client.Connect | source/core/tcp/ssl_client.cxx:105-148 | succeeds exactly from all-clear flags with both connect and handshake established |
| SslClient.Client.ConnectAsync | source/core/tcp/ssl_client.cxx:205-234 | posts a connect on a fresh stream exactly from all-clear flags |
| SslClient.Client.ConnectHandler | source/core/tcp/ssl_client.cxx:213-226 | starts one connect if the flags are still all clear |
| SslClient.Client.ConnectEndpoint | source/core/tcp/ssl_client.cxx:150-203 | a connect that succeeded starts the handshake whatever `onConnect` did |
| SslClient.Client.HandshakeCompleted | source/core/tcp/ssl_client.cxx:178-197 | opens the connection or starts its shutdown |
| RoundRobin.Fairness | include/core/service.hxx:87-89 | over any m calls each of n services is returned m/n times, rounded down or up, without wrap-around or when n divides the modulus |
| RoundRobin.EachOnce | include/core/service.hxx:87-89 | any n consecutive calls return each service exactly once |
| RoundRobin.WrapAround | include/core/service.hxx:87-89 | every window of n calls, also across the counter's wrap-around, is a permutation if and only if n divides the modulus |
| RoundRobin.SlotsCompose | include/core/service.hxx:87-89 | the counter left by k calls continues the same sequence of services |
| RoundRobin.Service.constructor | source/core/service.cxx:55-80 | one service without threads, a service per thread, or one service with a strand for all threads |
| RoundRobin.Service.Start | source/core/service.cxx:92-121 | resets the index and binds thread i to service i modulo their number; without a strand no two threads share a service; with no thread to run its handler the call never returns |
| RoundRobin.Service.GetIoService | include/core/service.hxx:87-89 | returns the next slot and advances the counter with wrap-around |
| HandlerMemory.BlocksAreDistinct | include/core/memory.hxx:35-53 | over every sequence of allocations and frees live blocks are distinct and large enough, and the slot is live exactly when the flag is set |
| HandlerMemory.FreeReleasesItsOwn | include/core/memory.hxx:48-53 | a free gives back the slot if and only if the block was the slot, and reaches the heap otherwise |
| HandlerMemory.AllocThenFree | include/core/memory.hxx:35-53 | freeing what was just allocated restores the allocator |
| HandlerMemory.Storage.Alloc | include/core/memory.hxx:35-42 | the slot for a small request when free, otherwise what the heap returns; a non-null result joins the live blocks with that address and enough room |
| HandlerMemory.Storage.Free | include/core/memory.hxx:48-53 | the block leaves the live blocks, and only the slot clears the flag |
| Itoa.FastItoa | include/core/util.hxx:16-24 | the view has as many cells as the number has digits, parses back to it, has no leading zero unless the number is 0, and the cells before it are untouched |
| Itoa.TwentySuffice | include/core/util.hxx:16-24 | 20 cells suffice for every 64-bit value |

## Left out

- Synchronous `send` and `receive`: they bypass the send buffers; totals and FIFO are stated for asynchronous use.
- `Server::restart`, `Service::stop` and `Service::restart`: spin-waits and re-creation of foreign objects.
- The synchronous `Client::connect` and the reconnect methods of the TCP client: the pipeline is modelled within one connection.
- The receive loop of the clients: statement for statement the session's, except that it disconnects through `disconnectAsync`.
- source/core/timer.cxx, `CacheView`, error filtering, endpoints, socket options, certificates: plumbing with only easy members.
- Data races at the level of the memory model, and the width of byte counters other than the in-flight one, which is shown never to wrap.
- TcpServer.Server.Multicast: sessions inside the server object are values, so aliasing of session objects is not captured; the iteration order of the registry is a parameter.
- SendPipeline.Pipeline.TrySend: the send members of a session are an object of their own here, shared by session and client; in the code they are members of each class.
- HandlerMemory.Storage.Alloc: alignment and the bytes of the storage are not modelled, only addresses and sizes.
