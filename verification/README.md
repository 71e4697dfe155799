# Verification of the reactor network library and the unit manager / node protocol

A Dafny model of two parts of the repository, each object in the form the C++ has it (classes with
fields, loops over arrays and texts) and each tied to a specification on values about which the
properties are proved.

**The reactor network library (`network/`).** `Buffer.dfy` is the two-index byte buffer, `Poller.dfy` the
channels and the incremental epoll table, `EventLoop.dfy` the functor queue with its eventfd as a protocol
between any number of threads, `TcpConnection.dfy` one connection with its output stream and half-close,
`TcpServer.dfy` the whole multi-loop server with the teardown that crosses loops, `ServerStream.dfy` each
connection's output stream in runs of that server and the thread each part changes on, and `Connector.dfy` the
connecting socket. System calls are parameters constrained by their contracts: `write` takes at most what it
is given or fails, `readv` fills its vectors in order, epoll reports requested events and ERR and HUP.
Threads are interleavings of atomic steps.

**The unit manager and its nodes.** `UnitManager.dfy` is the registry with the port bitmap,
`StackFlow.dfy` a node beside it with the set-up and exit protocol, `ParamCodec.dfy` the length-prefixed
pair and the work ids, `JsonScan.dfy` the character-level field scanner, `JsonText.dfy` texts as the printer
writes them, `Chunk.dfy` one numbered chunk of a streamed answer, `Message.dfy` the message printed around it
and the scans that take it out again, `Numbering.dfy` the numbers that one counter gives to the calls of several
tasks, `Stream.dfy` whole answers from sender to receiver, `Send.dfy` how a node reports an error, `Envelope.dfy`
the spliced reply URL and its reader, `Utf8.dfy` the encoder against RFC 3629, `Text.dfy` the C and C++ text
primitives all of them use.

A module named `...Model` (also `LoopProtocol`, `Lifecycle`, `ServerStream`, `JsonText`, `Numbering`) holds values, functions and lemmas;
the module beside it holds the class, whose methods are proved to do exactly what the functions say.
`dafny verify dfyconfig.toml` checks everything.

Where a property fails in the code the condition under which it holds is proved in both directions:

- the length byte is a signed `char`: the pair is recovered if and only if its first part has at most 127
  bytes (`ParamCodec.PairRoundTrip`, `ParamCodec.ChainRoundTrip`);
- `shutdownInLoop` sends SHUT_WR over unsent bytes if and only if it runs on a connection that is already
  down with output left, because closing clears the write interest and keeps the buffer
  (`ConnectionModel.LossyHalfClose`). Some later run comes to it if and only if the connection is connected, or is
  disconnecting with a shutdown queued and bytes unsent or a message queued before that shutdown and before any
  forced close, or is down with a shutdown queued and bytes unsent (`ConnectionModel.LossAhead`);
- a SHUT_WR of a connection that is up overtakes an earlier send if and only if a message waits in the queue,
  before any forced close (`ConnectionModel.HalfCloseOvertakes`); the message is then lost
  (`ConnectionModel.OvertakenIsLost`);
- a functor queued after the connection has moved on, by a thread that read the state before, runs after
  `connectDestroyed` if and only if the server no longer held the connection at the push
  (`Lifecycle.LateCall`);
- a streamed piece comes through its message if and only if its text does not end like the quoted name of the
  fields `object`, `index` or `finish`, does not end in a backslash, never closes a brace it has not opened, and
  leaves no more open than the text behind the chunk closes, since the scanner counts braces inside texts
  (`StreamModel.AnswerRebuilt`); with ids and a response format whose braces balance, that is at most one
  (`StreamModel.UsualAnswerRebuilt`). So `}` and `object` are lost, and `{` is not
  (`StreamModel.BracePieces`);
- the tasks of a process share one counter. However their calls interleave, a task's answer is rebuilt for all
  receivable pieces if and only if its pieces are numbered in turn from 0, leaving out no number but the finishing
  call's (`StreamModel.InterleavedRebuilt`), and ends in an index error if and only if its numbers have a gap
  (`StreamModel.InterleavedError`). Between the two a piece is lost and no error tells (`StreamModel.FirstPieceLost`).
  A counter that stands at k for the k-th call is enough (`Numbering.CountedIsInTurn`) and not necessary
  (`Numbering.LuckyNumbers`);
- a node reports an error by passing a JSON object where `send` takes a string, and the conversion throws. So a
  set-up returns, and in agreement with the manager, if and only if there is room for a task and it loads
  (`AgreementModel.SetupAgrees`); any other ends the node and leaves its unit and two ports at the manager
  (`AgreementModel.RefusedSetupLeaves`). The rollback in `StackFlow::setup` is right for a `setup` that returns a
  code, which none here does (`AgreementModel.RefusalRestores`);
- the data field of a message gives back the chunk and nothing else if and only if the braces of its text
  balance (`MessageModel.MessageCarriesChunk`);
- a channel takes URL and ids from a message if and only if the message holds a quoted `action` with no backslash
  before it that the search does not step over, which it does for one sharing its first quote with an escaped one
  (`EnvelopeModel.FlagIs`);
- the scanner reads a field back whatever value it holds if and only if its quoted key occurs in no earlier key
  or value (`JsonScan.ReadBackExactly`);
- a port is read back from its printed URL if and only if no digit follows it (`ManagerModel.ScanPrinted`),
  allocation is sound if and only if two ports are free (`ManagerModel.AllocationSafe`), and `sql_set` and
  `sql_unset` are harmless if and only if they leave live unit keys alone (`ManagerModel.SqlSetSafe`,
  `ManagerModel.SqlUnsetSafe`);
- an exit returns, and in agreement, if and only if it names a task of the node by the printed work id; `llm.05`
  ends task 5 and leaves its unit registered, and `llm.7` without a task 7 ends the node
  (`AgreementModel.ExitAgrees`);
- a loop entered with functors already queued never gets stuck if and only if there are none or a wakeup is due
  (`LoopProtocol.QueuedBeforeLoop`);
- whatever connect(2) answers, a connector's step fails no assertion and loses no socket if and only if it
  starts no attempt, or starts one with no channel object left and, outside `restart`, while disconnected
  (`ConnectorModel.ReadySteps`); with a given answer, `restart` keeps every socket in one place if and only if no
  attempt is under way and no connection in progress meets the last attempt's channel
  (`ConnectorModel.RestartKeepsLedger`).

## Model

| member | source | states |
|---|---|---|
| BufferModel.MakeSpace | network/include/network/Buffer.h:252-266 | compaction and growth leave the content unchanged and give the space asked for |
| BufferModel.Append | network/include/network/Buffer.h:88-112 | the content grows by exactly the data |
| BufferModel.Retrieve | network/include/network/Buffer.h:53-73 | the content loses exactly its first bytes, also when the indices are reset |
| BufferModel.Unwrite | network/include/network/Buffer.h:114-117 | the content loses exactly its last bytes |
| BufferModel.Prepend | network/include/network/Buffer.h:232-237 | the content gains exactly the data in front |
| BufferModel.ReadFd | network/src/Buffer.cc:14-52 | what `readv` delivers follows the content in order, whether or not it overflows into the extra block |
| BufferModel.StepRefines | network/include/network/Buffer.h:53-266 | an operation fails no assertion, `makeSpace`'s included, if and only if a plain byte sequence has the bytes it takes and a prepend fits the prependable bytes; then it does the same |
| BufferModel.RunRefines | network/include/network/Buffer.h:53-266 | every run in which no assertion fails ends with the bytes a plain sequence ends with |
| BufferModel.RoomyRuns | network/include/network/Buffer.h:232-266 | no assertion fails in a run whose prepends stay within eight bytes of room, in particular in one without prepends |
| BufferModel.GrowthBound | network/include/network/Buffer.h:252-256 | when an append grows the storage, it stays below readable bytes afterwards + appended bytes + 8 |
| BufferModel.StorageBound | network/include/network/Buffer.h:98-103 | over any run in which no assertion fails the storage stays within the larger of its start and peak content + largest append + 8 |
| ByteBuffer.Buffer.constructor | network/include/network/Buffer.h:30-37 | an empty buffer with the space asked for |
| ByteBuffer.Buffer.Retrieve | network/include/network/Buffer.h:53-73 | does in place what the specification says |
| ByteBuffer.Buffer.RetrieveAsString | network/include/network/Buffer.h:79-84 | what is returned and what stays make up what was there |
| ByteBuffer.Buffer.MakeSpace | network/include/network/Buffer.h:252-266 | refines the specification |
| ByteBuffer.Buffer.CopyDown | network/include/network/Buffer.h:260-261 | the element by element move writes over nothing before it has been read |
| ByteBuffer.MovedOne | network/include/network/Buffer.h:260-261 | where source and target overlap, the next element is still the original one |
| ByteBuffer.Buffer.EnsureWritableBytes | network/include/network/Buffer.h:98-103 | refines the specification |
| ByteBuffer.Buffer.Append | network/include/network/Buffer.h:88-96 | the content is the old content and the data |
| ByteBuffer.Buffer.Unwrite | network/include/network/Buffer.h:114-117 | refines the specification |
| ByteBuffer.Buffer.Prepend | network/include/network/Buffer.h:232-237 | refines the specification |
| ByteBuffer.Buffer.AppendInt | network/include/network/Buffer.h:122-140 | appends the integer's bytes in network order, for all four widths |
| ByteBuffer.Buffer.PrependInt | network/include/network/Buffer.h:212-230 | prepends the integer's bytes in network order |
| ByteBuffer.Buffer.PeekInt | network/include/network/Buffer.h:178-207 | returns whatever integer of that width was written in front |
| ByteBuffer.Buffer.ReadInt | network/include/network/Buffer.h:146-172 | returns it and removes exactly its bytes |
| ByteBuffer.Buffer.ReadFd | network/src/Buffer.cc:14-52 | refines the specification; an error changes nothing |
| BigEndian.RoundTrip | network/include/network/Endian.h:9-19 | a signed integer of any width reads back as it was written |
| BigEndian.DigitAt | network/include/network/Endian.h:9-19 | byte i is the digit of weight 256^(width-1-i): the most significant byte comes first |
| PollerModel.CloseOrReadOnce | network/src/Channel.cc:40-57 | with what epoll can report, one dispatch never both closes and reads, and runs each callback at most once |
| PollerModel.DispatchMeans | network/src/Channel.cc:40-57 | the close callback runs exactly on HUP without IN, read on IN, PRI or RDHUP, write on OUT, error on ERR or NVAL, each before the next of these four |
| PollerModel.DispatchOnly | network/src/Channel.cc:40-57 | no other list of callbacks fits the bits |
| PollerModel.UpdateAccepted | network/src/Poller.cc:97-139 | the kernel accepts the call an update makes and holds the added masks afterwards |
| PollerModel.RemoveAccepted | network/src/Poller.cc:141-160 | a removal deletes from the kernel exactly what is there |
| PollerModel.RunAccepted | network/src/Poller.cc:97-182 | over any run every call is accepted, and the masks kept are those asked for last |
| PollerModel.TableRefinement | network/src/Poller.cc:97-182 | folding all ADD, MOD and DEL calls gives the current masks of the `kAdded` channels; no ADD hits a present descriptor, no MOD or DEL an absent one |
| PollerModel.DisabledTwiceIsAdded | network/src/Poller.cc:103-119 | disabling a disabled channel adds it back with an empty mask |
| Polling.Channel.EnableReading | network/include/network/Channel.h:46-49 | the edited mask reaches poller and kernel |
| Polling.Channel.DisableReading | network/include/network/Channel.h:50-53 | the edited mask reaches poller and kernel |
| Polling.Channel.EnableWriting | network/include/network/Channel.h:54-57 | the edited mask reaches poller and kernel |
| Polling.Channel.DisableWriting | network/include/network/Channel.h:58-61 | the edited mask reaches poller and kernel |
| Polling.Channel.DisableAll | network/include/network/Channel.h:62-65 | the edited mask reaches poller and kernel |
| Polling.Channel.UpdateIn | network/src/Channel.cc:29-32 | the poller's view follows the mask |
| Polling.Channel.RemoveFrom | network/src/Channel.cc:34-38 | the channel is known, disabled, and afterwards new |
| Polling.Channel.HandleEvent | network/src/Channel.cc:40-57 | each event bit runs its callback and no other, in the order close, read, write, error |
| Polling.Poller.UpdateChannel | network/src/Poller.cc:97-139 | index, map and kernel table change together as specified |
| Polling.Poller.AddChannel | network/src/Poller.cc:103-120 | the first branch |
| Polling.Poller.ChangeChannel | network/src/Poller.cc:121-138 | the second branch |
| Polling.Poller.Control | network/src/Poller.cc:162-182 | one `epoll_ctl` call, never refused |
| Polling.Poller.RemoveChannel | network/src/Poller.cc:141-160 | the entry and the kernel's are gone, the channel is new |
| Polling.Poller.HasChannel | network/src/Poller.cc:200-204 | true exactly for a channel the poller knows |
| Polling.Poller.FillActiveChannels | network/src/Poller.cc:78-95 | every reported descriptor belongs to a known channel and reaches it with its events |
| Polling.Poller.Poll | network/src/Poller.cc:48-76 | active channels carry what their masks allow; a full event list doubles |
| LoopProtocol.StepKeepsInv | network/src/EventLoop.cc:71-190 | every step of every thread keeps the accounting of queued, running and run functors |
| LoopProtocol.EveryRun | network/src/EventLoop.cc:71-190 | in every interleaving: queued = run ++ rest of the batch ++ pending, and a loop polling with work pending has a readable eventfd or a producer about to write it |
| LoopProtocol.OneIterationDrains | network/src/EventLoop.cc:177-190 | what is queued when the loop polls has run when the iteration ends |
| LoopProtocol.PendingWorkWakesTheLoop | network/src/EventLoop.cc:160-166 | from any such polling state at most two steps of others bring the loop out of its wait |
| LoopProtocol.QueuedBeforeLoop | network/src/EventLoop.cc:116-125 | entered with any functors queued, the loop gets stuck in no run if and only if there are none or a wakeup is due |
| LoopProtocol.FlagsSay | network/src/EventLoop.cc:98-175 | over every run the eventfd's counter is the number of wakeups since it was last read, and `quit_` is set exactly when somebody called `quit` |
| LoopProtocol.StopsAfterQuit | network/src/EventLoop.cc:78-94 | the loop leaves exactly at a test after a quit |
| Reactor.EventLoop.Enqueue | network/src/EventLoop.cc:116-121 | the push is one step of the protocol |
| Reactor.EventLoop.Wakeup | network/src/EventLoop.cc:160-166 | so is the wakeup |
| Reactor.EventLoop.QueueInLoop | network/src/EventLoop.cc:116-125 | the functor is last in the queue; a wakeup follows from another thread or from inside a functor |
| Reactor.EventLoop.RunInLoop | network/src/EventLoop.cc:108-114 | run at once on the loop thread, queued with a wakeup otherwise |
| Reactor.EventLoop.HandleRead | network/src/EventLoop.cc:168-175 | one read of the eventfd leaves its counter 0 |
| Reactor.EventLoop.DoPendingFunctors | network/src/EventLoop.cc:177-190 | runs exactly the functors queued before, in order; what any thread queues meanwhile waits, with the eventfd readable or a wakeup still owed |
| ConnectionModel.SendKeepsInv | network/src/TcpConnection.cc:86-124 | a send puts its message on the wire and in the buffer, in order, or drops it whole |
| ConnectionModel.WriteKeepsInv | network/src/TcpConnection.cc:273-301 | a write event moves bytes from the buffer to the wire and stops writing exactly when none are left |
| ConnectionModel.StepConserves | network/src/TcpConnection.cc:68-194 | wire ++ buffer grows by exactly the messages accepted |
| ConnectionModel.StreamConservation | network/src/TcpConnection.cc:68-301 | over every run wire ++ buffer is the accepted messages in execution order; a message rejected by EPIPE or ECONNRESET adds nothing |
| ConnectionModel.WireGrows | network/src/TcpConnection.cc:86-124 | each event puts on the wire exactly the bytes its call of write took, and queues a write-complete callback exactly when that call left nothing unsent |
| ConnectionModel.WireIsWritten | network/src/TcpConnection.cc:86-301 | over every run the wire is what the calls of write took, one after the other |
| ConnectionModel.StateChanges | network/src/TcpConnection.cc:126-194 | a connection goes down exactly at a hang-up, an end of file or a forced close's turn, begins to disconnect exactly at shutdown or a forced close, and loses nothing buffered |
| ConnectionModel.ShutdownGoesOut | network/src/TcpConnection.cc:126-141 | SHUT_WR goes out exactly at a shutdown with nothing unsent, at its functor's turn, or at the write that empties a disconnecting connection's buffer |
| ConnectionModel.CallsInOrder | network/src/EventLoop.cc:116-125 | over every run the functors asked for are those that have run and then those that wait, in the order of the calls |
| ConnectionModel.MessagesInOrder | network/src/TcpConnection.cc:68-80 | so are the messages that other threads send |
| ConnectionModel.OffLoopOrder | network/src/TcpConnection.cc:68-80 | with senders on other threads only, the bytes taken are the messages executed and not dropped, which are a first part of those sent, in call order |
| ConnectionModel.ForceCloseHappens | network/src/TcpConnection.cc:168-194 | a forced close has taken the connection down when the functors queued before it, and its own, have run |
| ConnectionModel.HalfCloseIsClean | network/src/TcpConnection.cc:135-141 | a SHUT_WR of a connection that is up comes when every accepted byte is on the wire |
| ConnectionModel.LossyHalfClose | network/src/TcpConnection.cc:135-141 | SHUT_WR over unsent bytes happens exactly on a connection that is down with output left |
| ConnectionModel.LossAhead | network/src/TcpConnection.cc:126-194 | some later run half-closes over unsent bytes if and only if the connection is connected, or disconnecting with a shutdown queued and bytes unsent or to be, or down with a shutdown queued and bytes unsent |
| ConnectionModel.LossyHalfCloseHappens | network/src/TcpConnection.cc:126-141 | a run in which it does |
| ConnectionModel.LoopThreadStep | network/src/TcpConnection.cc:126-141 | with callers on the loop thread nothing is accepted after SHUT_WR and there is no second one |
| ConnectionModel.LoopThreadHalfClose | network/src/TcpConnection.cc:126-141 | over every such run SHUT_WR comes at most once and after every earlier send |
| ConnectionModel.HalfCloseOvertakes | network/src/TcpConnection.cc:126-141 | whoever calls, when the SHUT_WR of a connection that is up goes out, some later run takes more bytes if and only if a message waits in the queue with no forced close before it |
| ConnectionModel.RefusedAfterHalfClose | network/src/TcpConnection.cc:86-124 | with every write answered by EPIPE nothing more is taken or written |
| ConnectionModel.OvertakenIsLost | network/src/TcpConnection.cc:126-141 | so nothing is after any such SHUT_WR |
| ConnectionModel.OffLoopShutdownOvertakes | network/src/TcpConnection.cc:126-131 | a run in which a shutdown from another thread precedes that thread's earlier send |
| Connections.TcpConnection.Send | network/src/TcpConnection.cc:68-80 | at once on the loop thread; from another thread the message goes last into the queue |
| Connections.TcpConnection.SendBuffer | network/src/TcpConnection.cc:68-80 | likewise, and the caller's buffer is emptied if its content is sent |
| Connections.TcpConnection.SendInLoop | network/src/TcpConnection.cc:86-124 | the object does what the specification says, on its real buffer, channel and poller |
| Connections.TcpConnection.WriteDirectly | network/src/TcpConnection.cc:96-115 | what is written at once, what is left, and what a fault drops |
| Connections.TcpConnection.BufferRest | network/src/TcpConnection.cc:117-124 | what was not written is appended and write events enabled |
| Connections.TcpConnection.Shutdown | network/src/TcpConnection.cc:126-133 | only a connected connection begins to disconnect; from another thread the functor goes last into the queue |
| Connections.TcpConnection.ShutdownInLoop | network/src/TcpConnection.cc:135-141 | half-closes exactly when not writing |
| Connections.TcpConnection.ForceClose | network/src/TcpConnection.cc:168-175 | queued, behind everything else, while connected or disconnecting |
| Connections.TcpConnection.ForceCloseInLoop | network/src/TcpConnection.cc:188-194 | closes a connection that is still up |
| Connections.TcpConnection.ConnectEstablished | network/src/TcpConnection.cc:237-245 | connected, reading, one UP callback |
| Connections.TcpConnection.ConnectDestroyed | network/src/TcpConnection.cc:247-256 | the channel is disabled and leaves the poller; one DOWN callback from connected and none otherwise |
| Connections.TcpConnection.HandleRead | network/src/TcpConnection.cc:258-271 | input appended, the message callback sees all of it, end of file closes |
| Connections.TcpConnection.HandleWrite | network/src/TcpConnection.cc:273-301 | refines the specification |
| Connections.TcpConnection.Drained | network/src/TcpConnection.cc:281-289 | write events off, and the deferred half-close |
| Connections.TcpConnection.HandleClose | network/src/TcpConnection.cc:303-315 | disconnected, channel disabled, one DOWN and one close callback |
| Lifecycle.ErasedWasHeld | network/src/TcpServer.cc:89-98 | code that succeeds in erasing found its entry |
| Lifecycle.Closing | network/src/TcpConnection.cc:303-315 | going down leaves exactly one of the two remaining teardown functors queued |
| Lifecycle.UserSafe | network/src/TcpConnection.cc:68-175 | no user call at any stage fails an assertion |
| Lifecycle.HeadCallbackSafe | network/src/TcpConnection.cc:258-315 | nor does any callback a dispatch still has to run |
| Lifecycle.JobSafe | network/src/TcpConnection.cc:237-256 | nor does any queued functor |
| Lifecycle.RemovalSafe | network/src/TcpServer.cc:89-98 | a queued removal erases exactly one entry |
| Lifecycle.DestroyIsLast | network/src/TcpConnection.cc:247-256 | no functor of the connection is queued behind its destruction |
| Lifecycle.LastOwner | network/src/TcpConnection.cc:50-54 | when the server's map and the functors that hold a shared pointer have let go, the connection is disconnected and its channel removed, as the destructors assert |
| Lifecycle.LateCall | network/src/TcpConnection.cc:126-133 | a functor that another thread queues late runs after `connectDestroyed` if and only if the server no longer held the connection at the push |
| Lifecycle.PlaceReached | network/src/EventLoop.cc:177-190 | a queued functor's turn comes after as many functors as stood before it, and after the destruction if and only if that stood among them |
| Lifecycle.StepKeepsInv | network/src/TcpConnection.cc:168-315 | one connection, any step: no assertion fails, the stage invariant is kept |
| Lifecycle.InvIsProper | network/src/TcpConnection.cc:237-256 | at every stage one UP, then at most one DOWN and one close callback, then at most one destruction of a disabled channel, and nothing queued after it |
| ServerModel.NamesDiffer | network/src/TcpServer.cc:60-67 | two connections never share a name |
| ServerModel.AcceptStep | network/src/TcpServer.cc:60-82 | a new connection fits beside all others |
| ServerModel.JobStep | network/src/EventLoop.cc:177-190 | running the next functor of any loop keeps every connection sound |
| ServerModel.RemovalHolds | network/src/TcpServer.cc:89-98 | when the base loop runs a removal, the map has the entry, loses it, and the destruction is queued on the connection's loop |
| ServerModel.StepKeepsInv | network/src/TcpServer.cc:60-98 | every step of every loop, user, peer and kernel keeps the invariant of all connections |
| ServerModel.RunKeepsInv | network/src/TcpServer.cc:60-98 | so does every run |
| ServerModel.ConnectionLifecycle | network/src/TcpServer.cc:60-98 | in every run no assertion of connections, server and `Channel::remove` fails; each connection gets one UP, at most one DOWN and close, one erase and at most one `connectDestroyed`, in that order |
| Servers.TcpServer.NewConnection | network/src/TcpServer.cc:60-82 | a fresh name, and the object shows the server after the accept step, establishment at once on the base loop included |
| Servers.AcceptIs | network/src/TcpServer.cc:60-82 | that state is the server machine's next one |
| Servers.TcpServer.RemoveConnection | network/src/TcpServer.cc:84-87 | on the base loop at once, else queued to it: the object shows what code that closed the connection leaves |
| Servers.TcpServer.RemoveConnectionInLoop | network/src/TcpServer.cc:89-98 | erases exactly one entry and queues the destruction |
| Servers.RemovalIs | network/src/TcpServer.cc:89-98 | that is the server machine's step for the removal functor, and for code on the base loop |
| Servers.RemovalQueued | network/src/TcpServer.cc:84-87 | from another loop its step queues the removal |
| ServerStream.StepMoves | network/src/TcpConnection.cc:68-315 | each step of a connection in the server is at most one event of its own machine, the one its callback or functor stands for |
| ServerStream.ActionSteps | network/src/TcpServer.cc:60-98 | each step of the server is at most one step of each connection, and none of the others' |
| ServerStream.RunSteps | network/src/TcpServer.cc:60-98 | the steps of a run that are a connection's own take it from its acceptance to where it is |
| ServerStream.EveryStream | network/src/TcpConnection.cc:68-301 | in every run of the server, on every connection: wire ++ buffer is the messages taken from it in order, the wire is what its calls of write took, and a SHUT_WR while up left nothing unsent |
| ServerStream.OwnThread | network/src/TcpConnection.cc:86-315 | the server's map changes on the base loop's thread only, and other threads than its own loop's change at most the state of a connection, as `assertInLoopThread` demands |
| ServerStream.OwnAccept | network/src/TcpServer.cc:81 | the acceptance itself establishes a connection exactly when its loop is the base loop |
| ConnectorModel.ConnectKeepsInv | network/src/Connector.cc:59-118 | a connect attempt fails its assertion exactly when a channel object is left over |
| ConnectorModel.StepKeepsInv | network/src/Connector.cc:29-181 | a step succeeds with each socket in one place if and only if it is no misuse; outside `restart` a misuse is what fails an assertion |
| ConnectorModel.ReadySteps | network/src/Connector.cc:29-118 | it does so for every answer of connect(2) if and only if it starts no attempt, or one with no channel left and, outside `restart`, while disconnected |
| ConnectorModel.RestartKeepsLedger | network/src/Connector.cc:98-104 | `restart` succeeds with each socket in one place if and only if no attempt is under way and no connection in progress meets a left-over channel |
| ConnectorModel.RestartLosesSocket | network/src/Connector.cc:98-104 | during an attempt it fails the assertion or leaves the attempt's socket neither held nor closed nor handed over |
| ConnectorModel.SocketLedger | network/src/Connector.cc:29-181 | over every run each created socket is held by the attempt, closed once or handed over once |
| ConnectorModel.SettledLedger | network/src/Connector.cc:29-181 | when the connector has come to rest, every socket is closed or handed over |
| ConnectorModel.WriteEventDecides | network/src/Connector.cc:132-156 | a write event hands the socket over if and only if it is connected and wanted, and closes it otherwise |
| ConnectorModel.OnlyWinnersHanded | network/src/Connector.cc:132-156 | no other step hands a socket over |
| ConnectorModel.HandedOver | network/src/Connector.cc:29-181 | over every run exactly the sockets whose write event found them connected and wanted are handed over |
| ConnectorModel.AttemptBegins | network/src/Connector.cc:59-118 | a step that starts an attempt creates one socket, which is the attempt's if the connection is in progress and closed otherwise; no other step creates one |
| ConnectorModel.AttemptEnds | network/src/Connector.cc:50-181 | an attempt ends exactly at a callback of its channel or at the functor of `stop`, and unless it is handed over its socket is closed then, once |
| ConnectorModel.TasksInOrder | network/src/Connector.cc:44-57 | functors are queued behind the others and run from the front |
| ConnectorModel.LastWishHolds | network/src/Connector.cc:29-48 | over every run the last of `start`, `restart` and `stop` decides whether a connection is wanted |
| ConnectorModel.CallbacksMean | network/src/Connector.cc:106-118 | of a dispatch's callbacks the channel runs write and error only |
| Connectors.Connector.Start | network/src/Connector.cc:29-32 | the object takes the step of the state machine |
| Connectors.Connector.Restart | network/src/Connector.cc:98-104 | disconnects and starts at once, also during an attempt; outside one the ledger is kept |
| Connectors.Connector.StartInLoop | network/src/Connector.cc:34-42 | likewise |
| Connectors.Connector.DoConnect | network/src/Connector.cc:59-96 | the errno decides between waiting, retrying and closing |
| Connectors.Connector.Retry | network/src/Connector.cc:168-181 | closes the socket and disconnects |
| Connectors.Connector.RemoveAndResetChannel | network/src/Connector.cc:120-128 | returns the channel's socket; the object goes later |
| Connectors.Connector.Stop | network/src/Connector.cc:44-48 | queued |
| Connectors.Connector.StopInLoop | network/src/Connector.cc:50-57 | closes the socket of an attempt under way |
| Connectors.Connector.RunTask | network/src/EventLoop.cc:177-190 | the next functor of this connector |
| Connectors.Connector.RunCallback | network/src/Channel.cc:40-57 | the next callback of the dispatch |
| Connectors.Connector.HandleWrite | network/src/Connector.cc:132-156 | the socket is handed over if and only if it is connected without error and still wanted, and closed otherwise |
| Connectors.Connector.HandleError | network/src/Connector.cc:158-166 | an error of an attempt under way closes its socket |
| ParamCodec.BuildParam | hybrid-comm/src/pzmq_data.cpp:59-63 | the length byte is written over the placeholder |
| ParamCodec.Layout | hybrid-comm/src/pzmq_data.cpp:40-63 | one byte with the first part's length modulo 256, then the two parts |
| ParamCodec.PairRoundTrip | hybrid-comm/src/pzmq_data.cpp:40-63 | both parts come back if and only if the first has at most 127 bytes |
| ParamCodec.ChainRoundTrip | hybrid-comm/src/pzmq_data.cpp:40-63 | right-nested chains of any depth come back if and only if every part but the last fits |
| ParamCodec.RegistrationRoundTrip | infra-controller/src/StackFlow.cpp:203-209 | id, output URL and inference URL of a registration are recovered if and only if the output URL fits |
| ParamCodec.WorkIdRoundTrip | infra-controller/src/StackFlowUtil.cpp:93-115 | a printed work id of a dot-free unit gives back its number and name |
| ParamCodec.NoWorkId | infra-controller/src/StackFlowUtil.cpp:93-100 | a text without a dot, or with nothing behind its first one, stands for -100, which is no unit's number |
| ParamCodec.WorkIdsDistinct | unit-manager/src/remote_server.cpp:104-105 | work ids of different units or numbers differ, and none is an `.out_port` key |
| SendModel.RefusalThrows | infra-controller/include/StackFlow.h:126-127 | a caller that passes a JSON object as the error text never gets to return its code |
| Text.StoiOfToString | infra-controller/src/StackFlowUtil.cpp:93-100 | `stoi` reads back a printed number whatever follows it, unless a digit does |
| Text.StoiReads | infra-controller/src/StackFlowUtil.cpp:93-100 | `stoi` takes white space, a sign and the digits that follow, and throws exactly when there are none or they do not fit an `int` |
| Text.ScanIOfToString | unit-manager/src/remote_server.cpp:118-122 | so does `%i`, whose base follows from the text, for positive numbers |
| Text.ScanIReadsDecimal | unit-manager/src/remote_server.cpp:118-122 | `%i` takes white space, a sign and the digits of a positive number |
| Text.ScanIReadsOctal | unit-manager/src/remote_server.cpp:118-122 | digits behind a zero it reads as octal |
| Text.ScanIReadsHex | unit-manager/src/remote_server.cpp:118-122 | digits behind `0x` it reads as hexadecimal |
| Utf8.UnicodeToUtf8 | infra-controller/src/StackFlowUtil.cpp:117-139 | writes the encoding into the array and nothing else |
| Utf8.FormOfRfc3629 | infra-controller/src/StackFlowUtil.cpp:117-139 | every code point up to 0x10FFFF gets the octets of section 3 of RFC 3629 and they carry it |
| Utf8.DecodesInContext | infra-controller/src/StackFlowUtil.cpp:117-139 | an encoding is read back in front of anything |
| Utf8.TextRoundTrip | infra-controller/src/StackFlowUtil.cpp:117-139 | concatenated encodings decode uniquely |
| Utf8.FirstDifference | infra-controller/src/StackFlowUtil.cpp:117-139 | two encodings part where the smaller number has the smaller octet |
| Utf8.OrderPreserved | infra-controller/src/StackFlowUtil.cpp:117-139 | byte order of texts is code point order, as section 1 of RFC 3629 has it |
| JsonScan.SampleJsonStrGet | infra-controller/src/StackFlowUtil.cpp:17-91 | the loop computes the scan it is specified by |
| JsonScan.ScanValue | infra-controller/src/StackFlowUtil.cpp:31-89 | behind a key the scan returns a quoted text, a bare token or the shortest balanced object |
| JsonScan.FirstKeyGives | infra-controller/src/StackFlowUtil.cpp:17-91 | when the first occurrence of the quoted key is a key, its value is returned |
| JsonScan.ScanInvertsPrinting | infra-controller/src/StackFlowUtil.cpp:17-91 | for every printed object and field whose quoted key occurs in no earlier key or value, the scan returns that field's value |
| JsonScan.ReadBackExactly | infra-controller/src/StackFlowUtil.cpp:17-91 | a field of a printed object is read back for every value it may hold if and only if its quoted key occurs in no earlier key or value |
| JsonScan.BeforeColon | infra-controller/src/StackFlowUtil.cpp:52-56 | between a key and its colon, characters that the scanner does not react to make no difference |
| JsonScan.AbsentGivesNothing | infra-controller/src/StackFlowUtil.cpp:27-30 | a key that occurs nowhere gives the empty text |
| JsonScan.KeyAsValueMisleads | infra-controller/src/StackFlowUtil.cpp:49-53 | a quoted key that first occurs as a value gives the empty text whatever follows |
| JsonText.EscapeProtects | node/test/src/main.cpp:131-141 | printing puts a backslash before every quote and keeps whether the text ends in one |
| JsonText.UnescapeInverts | node/test/src/main.cpp:131-141 | what is printed is a JSON string that stands for the text, by section 7 of RFC 8259 |
| JsonText.EscapeInjective | node/test/src/main.cpp:131-141 | texts that print alike are alike |
| JsonText.PrintedHoldsKey | infra-controller/src/StackFlowUtil.cpp:145-147 | a printed text contains a quoted key if and only if the text is the key or ends in a quote and the key |
| ChunkModel.ReadsIndex | infra-controller/src/StackFlowUtil.cpp:145 | the index is read back if and only if the delta does not end like its quoted key |
| ChunkModel.ReadsFinish | infra-controller/src/StackFlowUtil.cpp:146-149 | so is the finishing mark; reading nothing counts as finished |
| ChunkModel.ReadsDelta | infra-controller/src/StackFlowUtil.cpp:147 | the delta is read back as printed if and only if it does not end in a backslash |
| ChunkModel.ChunkDecodes | infra-controller/src/StackFlowUtil.cpp:142-157 | what decoding any printed chunk does to the buffer, for every delta and whatever follows the chunk |
| ChunkModel.ChunkIsObject | infra-controller/src/StackFlowUtil.cpp:57-71 | a chunk is one balanced object if and only if the braces of its delta balance |
| ChunkModel.ErrorsCrash | node/test/src/main.cpp:163-190 | both error reports of `task_user_data` leave it by an exception |
| ChunkModel.PlainRequest | node/test/src/main.cpp:171-194 | data under an object that does not name a stream is inferred on as it is, and the buffer is left alone |
| ChunkModel.EmptyRequest | node/test/src/main.cpp:164-170 | no data is error -24, whatever the object, and the buffer is left alone |
| ChunkModel.BrokenStream | node/test/src/main.cpp:174-190 | streamed data that cannot be put together is error -25, and the buffer is emptied |
| ChunkModel.ReadTextMeans | infra-controller/src/StackFlowUtil.cpp:73-80 | of printed texts only the empty one is read as nothing, and only `None` as `None` |
| MessageModel.ChunkData | infra-controller/include/channel.h:76-102 | what the data field of the printed message gives for any chunk: a text cut inside the delta if that closes a brace too many, the chunk and perhaps more if the text behind it closes what it leaves open, else nothing |
| MessageModel.MessageCarriesChunk | infra-controller/src/channel.cpp:44 | the data field gives back the chunk and nothing else if and only if the braces of its delta balance |
| MessageModel.ReadsObject | infra-controller/src/channel.cpp:44 | the object field is read back if and only if the delta does not end like its quoted name |
| MessageModel.KeyInMessageDelta | infra-controller/src/StackFlowUtil.cpp:27-53 | a key that the delta ends like gives the empty text, for any later field |
| MessageModel.UsualHeader | infra-controller/include/channel.h:79-94 | with balanced ids and response format, what stands behind the chunk closes exactly one brace |
| MessageModel.MessageStep | node/test/src/main.cpp:150-193 | what any message with a chunk comes to: the chunk's own effect if the message layer lets it pass, never a wait if not |
| MessageModel.WholeAnswerRead | node/test/src/main.cpp:144-147 | an answer sent whole is read back as printed if and only if it does not end in a backslash |
| MessageModel.ReadsWholeObject | infra-controller/src/channel.cpp:44 | the object of a whole answer is read back if and only if its text does not end like the quoted name |
| MessageModel.KeyInText | infra-controller/src/StackFlowUtil.cpp:27-53 | a later field's name that the text ends like gives the empty text |
| MessageModel.WholeAnswerReceived | node/test/src/main.cpp:144-194 | a whole answer under a plain object is inferred on as its text is read, and no data is error -24; the buffer is left alone |
| MessageModel.NoStream | node/test/src/main.cpp:174 | an object whose text does not contain `stream` is not read as one that does |
| MessageModel.ReadsCreated | infra-controller/include/channel.h:76-102 | the clock is read back from every message |
| MessageModel.ReadsError | infra-controller/include/channel.h:76-102 | the error field, where the data does not hold its quoted name, says code 0 with an empty text |
| MessageModel.ReadsRequestId | infra-controller/include/channel.h:76-102 | the request id is read back where data and object do not hold its quoted name |
| MessageModel.ReadsWorkId | infra-controller/include/channel.h:76-102 | so is the work id, which ends the message, when it does not end in a backslash |
| StreamModel.Collects | node/test/src/main.cpp:173-181 | unfinished messages are all kept waiting if and only if both layers leave every chunk what it is; then the buffer holds them by index |
| StreamModel.Reassembly | infra-controller/src/StackFlowUtil.cpp:142-157 | for any order of arrival with the finishing chunk last: waiting, then the parts in index order, then an empty buffer, if and only if every part is receivable in its message |
| StreamModel.AnswerNumbered | node/test/src/main.cpp:128-142 | the sender numbers the chunks of an answer sent in a row consecutively, empties and marks the last, and starts over |
| StreamModel.AnswerRebuilt | node/test/src/main.cpp:119-191 | sender, printed messages and receiver together rebuild a streamed answer in any order of arrival, if and only if every piece is receivable: names, backslash and braces |
| StreamModel.UsualAnswerRebuilt | node/test/src/main.cpp:119-191 | with balanced ids and response format the brace condition is: never closed before opened, at most one left open |
| StreamModel.BracePieces | infra-controller/src/StackFlowUtil.cpp:57-71 | a piece `{` comes through, `}` and `object` do not |
| StreamModel.EveryAnswerRebuilt | node/test/src/main.cpp:119-191 | so for every sequence of answers over the same counter and buffer |
| StreamModel.NumbersDecide | infra-controller/src/StackFlowUtil.cpp:142-157 | under given numbers every answer of receivable pieces is rebuilt if and only if the numbers are in turn |
| StreamModel.InTurnRebuilt | infra-controller/src/StackFlowUtil.cpp:142-157 | numbered in turn, an answer is rebuilt if and only if its pieces are receivable |
| StreamModel.GapIsError | infra-controller/src/StackFlowUtil.cpp:151-154 | with receivable parts an answer ends in an index error if and only if its numbers have a gap |
| StreamModel.InterleavedRebuilt | node/test/src/main.cpp:119-191 | whatever calls of other tasks fall between, a task's answer is rebuilt for all receivable pieces if and only if the shared counter numbers its calls in turn |
| StreamModel.InterleavedError | node/test/src/main.cpp:119-191 | and ends in an index error if and only if those numbers have a gap |
| StreamModel.FirstPieceLost | node/test/src/main.cpp:130-140 | numbered 1, 0, 1 an answer loses its first piece without an error |
| StreamModel.LateAnswerFails | node/test/src/main.cpp:130-132 | an answer sent in a row that starts while the shared counter is not zero ends in an index error |
| Numbering.SilentLoss | node/test/src/main.cpp:130-140 | calls of two tasks that number one of them 1, 0, 1: no gap, not in turn |
| Numbering.LuckyNumbers | node/test/src/main.cpp:130-140 | calls of two tasks that number one of them 1, 0: in turn, although the counter is not 0 at its first call |
| Numbering.CountedIsInTurn | node/test/src/main.cpp:130-132 | a counter at k for the k-th call is in turn and has no gap |
| Streams.Sender.TaskOutput | node/test/src/main.cpp:128-142 | prints the message with the numbered chunk and moves the counter, or a whole answer |
| Streams.Receiver.DecodeStream | infra-controller/src/StackFlowUtil.cpp:142-157 | refines the specification, the buffer left behind by an exception included |
| Streams.Receiver.TaskUserData | node/test/src/main.cpp:150-193 | a plain request is inferred on its data, with the buffer left alone; else a chunk waited for, a rebuilt text, or an exception: no data, or an index error that clears the buffer |
| Streams.Receiver.ReceiveMessage | infra-controller/src/channel.cpp:44 | a raw message goes through the scans for object and data |
| EnvelopeModel.PrefixHolds | unit-manager/src/remote_server.cpp:257-263 | the spliced prefix contains a quoted key if and only if it is `zmq_com` or the URL |
| EnvelopeModel.OtherKeysUnchanged | unit-manager/src/remote_server.cpp:256-265 | every other key is scanned in the envelope as in the request |
| EnvelopeModel.UrlReadBack | infra-controller/src/channel.cpp:36-38 | the receiver's scan for `zmq_com` returns the spliced URL |
| EnvelopeModel.FlagMeans | infra-controller/src/channel.cpp:26-43 | a channel reacts only to a quoted `action` that no backslash precedes |
| EnvelopeModel.FlagIs | infra-controller/src/channel.cpp:26-43 | it reacts if and only if there is such an occurrence and no escaped one ends in its first quote |
| EnvelopeModel.FirstNoticed | infra-controller/src/channel.cpp:26-43 | in particular to a first occurrence that is not escaped |
| EnvelopeModel.RequestNoticed | infra-controller/src/channel.cpp:26-43 | and to a printed request with a field `action` whose quoted name no earlier key or value holds |
| EnvelopeModel.FlagUnchanged | infra-controller/src/channel.cpp:26-43 | an envelope is noticed exactly when its request would be |
| EnvelopeModel.OutputsLeaveChannel | infra-controller/src/channel.cpp:26-43 | a printed message without the quoted `action` leaves URL, request id and work id alone |
| EnvelopeModel.ReceiverSeesRequest | infra-controller/src/channel.cpp:22-45 | the channel ends up with the spliced URL and the request's own ids |
| EnvelopeModel.PrintedRequestSeen | infra-controller/src/channel.cpp:22-45 | from the envelope of a printed request with an action and the two ids the channel gets exactly the spliced URL and those ids |
| EnvelopeModel.RequestWithoutUrl | infra-controller/src/channel.cpp:36-41 | from a request without a URL it gets the ids and keeps its URL |
| Envelopes.Sprintf | unit-manager/src/remote_server.cpp:261-263 | writes the text and its closing zero, and nothing else |
| Envelopes.SpliceInference | unit-manager/src/remote_server.cpp:256-265 | the writes stay inside the buffer and fill its size exactly |
| Envelopes.LlmChannel.SetPushUrl | infra-controller/src/channel.cpp:144-151 | the URL is the one given |
| Envelopes.LlmChannel.FindRequest | infra-controller/src/channel.cpp:26-43 | the search loop ends, and finds a request if and only if an occurrence of the quoted `action` counts as `FlagIs` has it |
| Envelopes.LlmChannel.SubscriberEventCall | infra-controller/src/channel.cpp:22-45 | the fields change exactly when the message is a request, and the callback gets object and data |
| ManagerModel.ScanPrinted | unit-manager/src/remote_server.cpp:66-76 | `sscanf` of a printed URL gives the printed port if and only if no digit follows it |
| ManagerModel.UrlNames | unit-manager/src/remote_server.cpp:66-76 | with a socket format the URL ends in a dot, the unit and the role, with any other it is the format with the port in it |
| ManagerModel.AllocateTakesTwoLowest | unit-manager/src/remote_server.cpp:47-106 | with two ports free a unit gets the two lowest, whatever the variables held |
| ManagerModel.AllocateKeepsInv | unit-manager/src/remote_server.cpp:47-106 | allocation adds one unit with two ports of its own and changes no other |
| ManagerModel.AllocationSafe | unit-manager/src/remote_server.cpp:56-66 | it does so for all garbage if and only if two ports are free |
| ManagerModel.Capacity | unit-manager/src/remote_server.cpp:164-170 | there is room exactly when the live units leave two ports |
| ManagerModel.ReleaseKeepsInv | unit-manager/src/remote_server.cpp:109-128 | releasing a live unit frees its own two ports, writes inside the bitmap and forgets its keys |
| ManagerModel.ReleaseUndoes | unit-manager/src/remote_server.cpp:109-128 | releasing what was just allocated restores bitmap and table |
| ManagerModel.OverwriteSafe | unit-manager/src/remote_server.cpp:37-45 | a foreign entry leaves the registry sound if and only if it hits no unit and no recorded URL |
| ManagerModel.SqlSetSafe | unit-manager/src/remote_server.cpp:37-40 | `sql_set` is harmless if and only if its key is no live unit, and no live unit's URL key unless it repeats the URL |
| ManagerModel.SqlUnsetSafe | unit-manager/src/remote_server.cpp:42-45 | `sql_unset` is harmless if and only if its key is neither |
| ManagerModel.SetSelect | unit-manager/src/remote_server.cpp:30-45 | what is set under a key is selected there until it is unset, and other keys keep theirs |
| ManagerModel.OutPortOnRecord | unit-manager/src/remote_server.cpp:104-105 | a live unit's output URL is found under its `.out_port` key |
| ManagerModel.ApplyKeepsInv | unit-manager/src/remote_server.cpp:30-162 | every allowed call keeps the registry sound, and which units it leaves |
| ManagerModel.RegisterFrame | unit-manager/src/remote_server.cpp:104-105 | a registration changes no other unit's entry |
| ManagerModel.DropFrame | unit-manager/src/remote_server.cpp:124-126 | a release removes at most the unit it names |
| ManagerModel.FreshInv | unit-manager/src/remote_server.cpp:164-170 | a freshly sized bitmap beside configuration values is sound and empty |
| ManagerModel.RunKeepsInv | unit-manager/src/remote_server.cpp:47-162 | over every run of allowed calls no release writes outside the bitmap and the set bits are exactly the ports of live units, two each, none shared |
| Managers.Manager.constructor | unit-manager/src/remote_server.cpp:164-170 | the bitmap covers the configured ports |
| Managers.Manager.TakePort | unit-manager/src/remote_server.cpp:56-65 | the first-fit loop refines the specification |
| Managers.Manager.FormatUrl | unit-manager/src/remote_server.cpp:66-77 | the URL always fits its buffer |
| Managers.Manager.AllocateUnit | unit-manager/src/remote_server.cpp:47-107 | refines the specification |
| Managers.Manager.ReleaseUnit | unit-manager/src/remote_server.cpp:109-128 | refines the specification; an unknown key changes nothing |
| Managers.Manager.RpcAllocateUnit | unit-manager/src/remote_server.cpp:130-135 | the reply carries the unit, and a sound registry with room stays sound |
| Managers.Manager.SqlSet | unit-manager/src/remote_server.cpp:37-40 | sets the entry |
| Managers.Manager.SqlUnset | unit-manager/src/remote_server.cpp:42-45 | erases the entry |
| Managers.Manager.SqlSelect | unit-manager/src/remote_server.cpp:30-35 | a text entry, or the empty text for anything else |
| AgreementModel.RegisterIs | infra-controller/src/StackFlow.cpp:197-215 | the node reads back the manager's id and URLs from the reply |
| AgreementModel.NumberIsNew | infra-controller/src/StackFlow.cpp:213 | the new channel replaces none |
| AgreementModel.SetupIs | infra-controller/src/StackFlow.cpp:76-90 | a set-up adds a task and its channel, or, with three tasks or a load that fails, leaves by the exception of its error report right after the registration; the `==` test for three tasks is enough |
| AgreementModel.SetupAgrees | node/test/src/main.cpp:197-247 | in agreement with a manager that has room, a set-up returns in agreement if and only if fewer than three tasks run and the load succeeds |
| AgreementModel.RefusedSetupLeaves | node/test/src/main.cpp:200-246 | any other set-up leaves a live unit, its two ports and a channel without a task behind |
| AgreementModel.RefusalRestores | infra-controller/src/StackFlow.cpp:85-88 | behind a `setup` that returned a code, the rollback leaves node, bitmap and units as they were, in agreement |
| AgreementModel.ExitIs | infra-controller/src/StackFlow.cpp:108-125 | an exit of a task removes task and channel and releases the unit named; any other leaves by an exception with nothing changed |
| AgreementModel.ExitAgrees | node/test/src/main.cpp:280-297 | an exit returns in agreement if and only if it names a task here by its printed work id |
| AgreementModel.ElsewhereAgrees | unit-manager/src/remote_server.cpp:130-162 | calls of other nodes to the manager keep agreement |
| AgreementModel.EventAgrees | infra-controller/src/StackFlow.cpp:76-125 | so does every allowed event |
| AgreementModel.RunAgrees | infra-controller/src/StackFlow.cpp:76-236 | over every run of set-ups that load with room, exits by work id and calls of other nodes, every event returns, and the node's tasks, its channels and the manager's live units of its name coincide, at most three |
| AgreementModel.StartAgrees | infra-controller/src/StackFlow.cpp:14-36 | an empty node beside a fresh manager agrees |
| StackFlows.LlmNode.SysRegisterUnit | infra-controller/src/StackFlow.cpp:197-215 | the object does what the specification says, through the real reply |
| StackFlows.LlmNode.SysReleaseUnit | infra-controller/src/StackFlow.cpp:217-236 | likewise |
| StackFlows.LlmNode.NodeSetup | node/test/src/main.cpp:197-247 | a set-up that is full, malformed or fails to load throws when it reports that, anything else becomes a task |
| StackFlows.LlmNode.Setup | infra-controller/src/StackFlow.cpp:76-90 | refines the specification; from agreement it returns in agreement if and only if there is room and the load succeeds |
| StackFlows.LlmNode.Proceed | infra-controller/src/StackFlow.cpp:80-90 | likewise, behind the registration |
| StackFlows.LlmNode.Conclude | infra-controller/src/StackFlow.cpp:85-89 | a code other than 0 gives the unit back, an exception does not |
| StackFlows.LlmNode.NodeExit | node/test/src/main.cpp:280-297 | an unknown task throws when it is reported, a known one goes |
| StackFlows.LlmNode.Exit | infra-controller/src/StackFlow.cpp:108-125 | refines the specification; from agreement it returns in agreement if and only if it names a task by its work id |

## Left out

- Sockets, addresses, `Acceptor` and `epoll_wait` itself: represented by parameters constrained by their contracts.
- Non-atomic check-then-set in `send`, `shutdown` and `forceClose` (marked FIXME in network/src/TcpConnection.cc): in the server's runs each is one atomic step; `Lifecycle.LateCall` says what a late push comes to.
- The assertion in `EventLoop::removeChannel` about channels whose events are being handled: functors run after them, and the connector removes the channel being handled.
- `startRead` and `stopRead`: a stopped channel is added back with an empty mask on close; no state check guards them.
- Destruction of `TcpServer`, `TcpClient` and `StackFlow`, and process shutdown: the server model assumes a live server.
- Overflow of the eventfd counter, of the stream counter and of the atomic id counter: counters are unbounded, and operations that need an `int` ask for one.
- High-water-mark and write-complete callbacks: the functors they queue touch no modelled state.
- That `write` fails after SHUT_WR is not assumed where `ConnectionModel.HalfCloseOvertakes` says that bytes can be taken later; `ConnectionModel.OvertakenIsLost` says what happens when it does.
- `HalfCloseIsClean` speaks of connections that are up; `LossyHalfClose` covers the rest.
- Retry timers of the connector (commented out in the source) and wall-clock time.
- Runs of the connector leave out the steps that `ConnectorModel.StepKeepsInv` shows to go wrong, `restart` during an attempt among them; in every other state it may be called.
- Bit operations of the UTF-8 encoder are arithmetic on the same bits; surrogates are encoded, as the code does.
- Negative or non-decimal garbage in an unset `port` variable: garbage is any natural number on allocation, any integer on release.
- `%` in a unit name or more than one conversion in a URL format: the name becomes part of a printf format in the source; the model has one `%i` and plain text around it.
- White space in the prefix of a URL format, which `sscanf` treats loosely.
- `ManagerModel.AllocateKeepsInv` asks for a positive first port and a suffix that does not begin with a digit, both properties of the configuration; `ManagerModel.ScanPrinted` shows what else happens.
- ZeroMQ delivery, simdjson and nlohmann internals: a remote call is a call, a dump is a flat printer with the usual escapes.
- The request and work ids that a receiving channel takes from a message with the quoted `action` in it are `EnvelopeModel.EventCall`'s; the streaming results are about what its callback gets.
- Polling.Poller.FillActiveChannels: looks the channel up by descriptor; the source takes it from the kernel's user data and asserts that it is the one in the map.
- Reactor.EventLoop.RunInLoop: on the loop thread it says that the functor is to run at once; running it is the caller's.
- Envelopes.LlmChannel.SetPushUrl: sets the URL; the push socket that the source replaces is not part of the model.
- StackFlows.LlmNode.SysReleaseUnit: takes a nonempty work id; an empty one comes only from the destructor of `StackFlow`.
- Subscription maps and sockets of `llm_channel_obj`, `_pause`, `taskinfo`, the choice of a remote action for other requests.
- `sizeof` of a C string is eight, as on the 64-bit targets; plain `char` is signed, so the length byte holds up to 127 (`CHAR_MAX`), where a target with unsigned `char` would have 255.
- `task_output` and `task_user_data` once their task or channel is gone: they do nothing, or report error -11 and so throw.
- A piece is a text of whole code points: on one that cuts the bytes of a character the printer throws.
- The receiver's buffer is one for all its tasks: the streaming results are about one answer received at a time.
- What happens after an exception that nothing catches: it ends the node, runs end there, and the manager stays as it is.
- The channel's push URL changed by `exit` before its checks: plumbing outside the registries.
- `EventLoopThread`, the thread pool's round robin, configuration loading, samples and scripts.
