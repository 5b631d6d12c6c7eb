# A verified model of the reactor server

The repository is a small multi-reactor TCP server in C++: a byte buffer, channels registered with an
epoll poller, connections with an output path, event loops that other threads hand functors to, a
server that owns the connections, and an echo application on top. This project models these parts in
Dafny and proves what the code is for: no byte is lost or reordered, no wake-up is lost, no channel
pointer outlives its owner, and every connection is torn down exactly once, under every interleaving of
the base loop, any number of io loops, and user threads.

Check everything with `dafny verify dfyconfig.toml`.

## How the model is built

Each stateful class of the repository is a Dafny class whose methods change its fields as the code does.
Every method is proved against a function on values (`View()` before, `View()` after), and what the code
promises is proved about those functions, over all runs.

| layer | classes | value functions | statements about runs |
|---|---|---|---|
| byte buffer | `Buffer.dfy` | `BufferSpec.dfy` | `BufferSpec.dfy` |
| channels and poller | `Epoll.dfy` | `EpollSpec.dfy`, `Registration.dfy` | `Registration.dfy`, `ConnRegistration.dfy`, `InterestBits.dfy` |
| connection, echo application | `TcpConnection.dfy`, `LoopConnections.dfy` | `ConnSpec.dfy` | `ConnRuns.dfy`, `ConnSteps.dfy`, `SendText.dfy`, `SendRuns.dfy`, `Echo.dfy` |
| event loop, pool, server | `EventLoop.dfy`, `ThreadPool.dfy`, `TcpServer.dfy` | `LoopSpec.dfy`, `ServerSpec.dfy`, `Naming.dfy` | `LoopSpec.dfy`, `ThreadPool.dfy`, `Naming.dfy` |
| all loops at once | | `ServerSystem.dfy` | `SystemInv.dfy`, `SystemSteps.dfy`, `SystemConns.dfy`, `SystemRuns.dfy`, `SystemTheorems.dfy`, `SystemProgress.dfy`, `SystemQuit.dfy`, `SystemAccounts.dfy`, `SystemProjection.dfy`, `SystemRegistration.dfy`, `SystemBalance.dfy`, `SystemWitness.dfy` |

### The step system

`ServerSystem.dfy` is the concurrent part. Loop 0 is the base loop, loops 1..n are the io loops. Each has
the phase its thread is in, the queue, quit flag and wake-up counter that other threads reach, the vector
the queue was swapped into, the active channels still to be handled, and what the handler in progress
still has to push or wake. One step is one access to what threads share, with the thread-local work
around it; pushing a functor and writing the wake-up are two steps, for loop threads and for user threads.
Functors that carry a connection are strong references to it, wherever they are; so are the server map and
the guard of a running handler. A connection nobody refers to is released and its descriptor closed.

- entering, testing `quit_`, polling, handling, swapping, running, ending a pass: `LEnter`, `LCheck`,
  `LPoll`, `LWake`/`LAccept`/`LAcceptNone`/`LConn`, `LDone`, `LSwap`, `LRun`, `LEndRun`
  (ZEventLoop/event_loop.cpp:49-66 and 125-146)
- pushing and waking: `LTodo`, `LForeignPush`, `LForeignWake`; quitting: `LQuit`, `LForeignQuit`
  (ZEventLoop/event_loop.cpp:68-107)
- a new connection, and its connectEstablished: `LAccept`, `LRun` (ZTcpServer/tcp_server.cpp:45-77)
- a close, the removal from the map, connectDestroyed: `LConn`, `LRun` (ZTcpServer/tcp_server.cpp:79-90);
  on the base loop the removal runs at once, inside the dispatch
- application callbacks that send on or shut down connections of their own loop, and functors of the
  application: `LCall`, `LQueue`

The connection inside a step is the same `ConnSpec` value the class is proved against, and the queue
operations are the same `LoopSpec` functions. `SystemProjection` shows that a run of the server, seen from
one connection, is a lawful run of that connection, so everything proved of one connection holds of each.
Every channel keeps a history of what it asked of its poller, recorded where it asks, in the class as in
the value. `SystemRegistration.OpsOf` reads the calls of a run on the poller of one loop, in their order,
off these histories, and shows that they are lawful, that none is refused, and what they leave in the
table and the kernel set, beside the loop's own wake-up channel and the acceptor's. There an object's
destruction is counted when its descriptor is used again, and
`SystemTheorems.ReleasedOnlyAfterDestroy` says that it never comes before the channel left the table.

### Where the code departs from its intent

- `sendInLoop` uses `nwrote` uninitialised when nothing is written directly
  (ZTcpConnection/TcpConnection.cpp:53 and 114), and its test `if (nwrote)` takes -1 for a success
  (ZTcpConnection/TcpConnection.cpp:71). `ConnSpec.SendInLoop` is the intent: 0, and any result but -1.
  `ConnSpec.SendInLoopText` is the text under any value of the uninitialised variable, any errno left
  over, and any memory around the caller's data; `Text.signTest` switches between the two readings.
  `SendText.TextKeepsStreamIff` says exactly when one send of the text as written keeps the stream,
  `SendRuns.RunKeepsStreamIff` and `SendRuns.EchoKeptIff` when a whole run does, and
  `SendText.TextBreaksStream` gives an input that breaks it. All other runs use the intent.
- `loop()` resets `quit_` on entry (ZEventLoop/event_loop.cpp:51): a quit lasts if and only if the loop was
  already entered, `SystemTheorems.QuitLastsIff`, and one issued before is lost,
  `SystemTheorems.EarlyQuitIsLost`.
- A functor queued by a loop's own thread before `loop()` gets no wake-up
  (ZEventLoop/event_loop.cpp:95): `SystemTheorems.NoLostWakeUpIff`.
- `handleEvent` can close a connection twice in one event (ZChannel/channel.cpp:110-126), when urgent data
  and hang-up arrive without readable and the read finds end of stream: `ConnRuns.LifeKeptIff`, with the
  event in `ConnRuns.ClosedTwice`. The step system allows it; ownership, dispatch safety, wake-ups, the
  order of functors and the accounting of closes are proved with it. Only the statements about a single
  close of a connection, and about its echo, are about runs that bring no such event to this connection,
  whatever events others get (`SystemProjection.ReachedSingly`); TCP sockets, which report readable along
  with urgent data and hang-up, bring none.
- `disableAll` on a channel that is not in the kernel set puts it there (ZChannel/channel.cpp:77-80):
  `Registration.DisableAllSilencesIff`, with the channel in `Registration.DisableAllRegisters`.
- `retrieveAsString` reads `len` bytes whatever is readable (ZBuffer/buffer.cpp:35-39): the contract of
  `ByteBuffer.Buffer.RetrieveAsString` says when the result comes from the readable bytes.
- `sendInLoop` only logs when the connection is already down (ZTcpConnection/TcpConnection.cpp:60-63).
  With sends on the loop's own thread, and through `send`, that point is not reached.

### What the environment is assumed to do

- `write` takes a prefix of what it is offered or fails (`Room(n)` takes at most n bytes); `readv` fills
  the vectors in order, up to their sizes, or fails.
- `epoll_wait` returns channels of the kernel set, each at most once, with any events; the wake-up channel
  only while its counter is positive.
- The high-water callback may be set at any moment (`ConnSpec.CallWatch`); it hears of the climbs over the
  mark from then on.
- `accept` returns a descriptor that no existing connection has. Fewer than 2^31 - 1 connections are made,
  so `++nextConnId` does not overflow.
- `epoll_ctl` refuses an ADD of a present descriptor and a MOD or DEL of an absent one.
- The server and its loops outlive the run; each io loop is built before it is used. The descriptors of a
  loop's wake-up channel and of the acceptor are open throughout, so no connection of the loop has them.

## Model

| member | source | states |
|---|---|---|
| ByteBuffer.Buffer.constructor | include/buffer.hpp:6-12 | An empty queue over storage of 8 bytes more than the initial size, 1024 by default, with both indices at 8. |
| ByteBuffer.Buffer.Retrieve | ZBuffer/buffer.cpp:18-25 | Takes the first len readable bytes off the queue, saturating: asking for all or more empties it and moves both indices back to 8. |
| ByteBuffer.Buffer.RetrieveAllAsString | ZBuffer/buffer.cpp:30-34 | Returns exactly the readable bytes, in order, and leaves the queue empty. |
| ByteBuffer.Buffer.RetrieveAsString | ZBuffer/buffer.cpp:35-39 | Returns the len storage bytes from the reader index and retrieves; they are a prefix of the readable bytes if and only if len does not exceed them. |
| ByteBuffer.Buffer.EnsureWritableBytes | ZBuffer/buffer.cpp:40-44 | Same readable bytes, and room as `BufferSpec.SpaceIsMade` says, whichever branch made it. |
| ByteBuffer.Buffer.Append | ZBuffer/buffer.cpp:45-49 | The readable bytes are the old ones followed by the given ones, through any compaction or growth of the array. |
| ByteBuffer.Buffer.MakeSpace | ZBuffer/buffer.cpp:111-122 | Grows or compacts the array as `BufferSpec.MakeSpace`, of which `BufferSpec.SpaceIsMade` says when and how; the readable bytes survive either. |
| ByteBuffer.Buffer.Resize | ZBuffer/buffer.cpp:114 | A new array of the given size that keeps every byte up to the writer index. |
| ByteBuffer.Buffer.MoveToFront | ZBuffer/buffer.cpp:116-121 | The forward overlapping copy in place: after it the bytes from index 8 on are the old readable bytes, none overwritten before it was read. |
| ByteBuffer.Buffer.ReadFd | ZBuffer/buffer.cpp:60-97 | For every number of bytes two vectors can hold: returns their number with the bytes behind the old readable ones, or -1 and the errno with the buffer unchanged. |
| ByteBuffer.Buffer.Readv | ZBuffer/buffer.cpp:69-82 | The bytes fill the tail first and the side array with the rest; the readable bytes stay as they are. |
| ByteBuffer.Buffer.WriteFd | ZBuffer/buffer.cpp:98-104 | What the socket takes is a prefix of the readable bytes, and the buffer is not changed by offering them. |
| BufferSpec.SpaceIsMade | ZBuffer/buffer.cpp:111-122 | Room is made, no byte lost. The storage keeps its size if and only if the readable bytes and len fit behind index 8; then they move there, from strictly above it. Else it grows, to exactly len writable bytes, and they stay. |
| BufferSpec.SpaceIsKept | ZBuffer/buffer.cpp:40-44 | Nothing is moved or grown if and only if len bytes fit behind the readable ones. |
| BufferSpec.SpaceIsFreed | ZBuffer/buffer.cpp:18-29 | Retrieving takes bytes off the front only, and the last of them leaves all storage behind index 8 to write to. |
| BufferSpec.ScatterReadIsOneAppend | ZBuffer/buffer.cpp:60-97 | Filling the tail and appending the spill gives the old readable bytes followed by all bytes read; 65536 bytes always fit into one read, never more than 131071 with two vectors, nor more than the tail with one. |
| BufferSpec.BufferIsBoundedFifo | ZBuffer/buffer.cpp:18-122 | Over every sequence of operations on a buffer of n bytes: 8 <= reader <= writer <= size; bytes taken followed by bytes readable are all bytes put in; the storage has its first size if and only if what was readable, with what was asked for beside it, never exceeded n; it never exceeds twice the most of that. |
| Registration.ChangeKeepsCoherent | ZChannel/channel.cpp:61-80 | Every interest change, from every coherent state, meets the precondition of its epoll_ctl call, leaves all other channels alone, and keeps index, table and kernel set in agreement. |
| Registration.RemoveKeepsCoherent | ZEpollPoller/epollpoller.cpp:66-78 | Removing leaves the descriptor in neither table nor kernel set and the channel new, with no refused call. |
| Registration.RegistrationStaysCoherent | ZEpollPoller/epollpoller.cpp:43-104 | After any sequence of creations, interest changes, removals and destructions: New iff absent from the table, Added iff in the kernel set with exactly the wanted events, Deleted only with none wanted; no epoll_ctl call was refused. |
| Registration.DisableAllSilencesIff | ZChannel/channel.cpp:77-80 | Switching all off takes a channel out of the kernel set if and only if it was in; doing it twice puts it back. |
| Registration.DisableAllRegisters | ZChannel/channel.cpp:77-80 | The input in point: on a channel just created it makes the kernel watch the descriptor, with no events. |
| Registration.RefusedIff | ZEpollPoller/epollpoller.cpp:87-104 | In any state, agreed or not: an interest change is refused if and only if the channel's index is wrong about the kernel set, a removal if and only if the channel passes for added and is not. |
| Registration.ChangeTouches | ZEpollPoller/epollpoller.cpp:43-64 | An interest change leaves every other descriptor's channel, table entry and kernel entry as they are, in any state of the poller. |
| Registration.CoherentIsDetermined | ZEpollPoller/epollpoller.cpp:43-78 | While they agree, the channels alone determine the table and the kernel set. |
| InterestBits.ChangeBits | ZChannel/channel.cpp:5-7 | Bit by bit: reading is EPOLLIN and EPOLLPRI, writing is EPOLLOUT; each of the five interest changes sets or clears just these, disableAll clears all five. |
| InterestBits.RunWantsRightly | ZChannel/channel.cpp:61-80 | Over every run of a connection: EPOLLIN and EPOLLPRI are wanted together, from when it is up until it is closed; EPOLLOUT exactly while it is open with output waiting; EPOLLERR and EPOLLHUP never. |
| InterestBits.ReturnedIsServed | ZChannel/channel.cpp:101-127 | A returned EPOLLIN or EPOLLPRI, and nothing else, brings a read; EPOLLOUT a write; EPOLLHUP without EPOLLIN a close; EPOLLERR an error. |
| InterestBits.CallbacksInOrder | ZChannel/channel.cpp:101-127 | Error, read, write, close, in this order and each once at most. |
| Epoll.Channel.constructor | ZChannel/channel.cpp:9-10 | A new channel wanting nothing, untied and unregistered. |
| Epoll.Channel.EnableReading | ZChannel/channel.cpp:61-64 | The poller's registration moves by one `Registration.ChangeInterest` for this descriptor, and this channel's index and events with it. |
| Epoll.Channel.DisableReading | ZChannel/channel.cpp:65-68 | Likewise for the read bits, leaving the write bit. |
| Epoll.Channel.EnableWriting | ZChannel/channel.cpp:69-72 | Likewise for the write bit. |
| Epoll.Channel.DisableWriting | ZChannel/channel.cpp:73-76 | Likewise, leaving the read bits. |
| Epoll.Channel.DisableAll | ZChannel/channel.cpp:77-80 | Likewise for all bits. |
| Epoll.Channel.Remove | ZChannel/channel.cpp:95-97 | The registration loses this channel, which is new again. |
| Epoll.Channel.HandleEvent | ZChannel/channel.cpp:14-25 | A tied channel whose owner is gone runs no callback; otherwise the returned mask decides. |
| Epoll.Channel.HandleEventWithGuard | ZChannel/channel.cpp:101-127 | Error, read, write, close in that order; read iff IN or PRI, close iff HUP without IN. |
| Epoll.EpollPoller.UpdateChannel | ZEpollPoller/epollpoller.cpp:43-64 | Table, index and kernel set of this channel move together, and nothing of any other channel changes. |
| Epoll.EpollPoller.RemoveChannel | ZEpollPoller/epollpoller.cpp:66-78 | The same for removal; a channel not in the table is left as it is. |
| Epoll.EpollPoller.Drop | ZChannel/channel.cpp:12 | A channel outside the table is destroyed: the registration loses it and nothing else, and its descriptor is free again. |
| Epoll.EpollPoller.Update | ZEpollPoller/epollpoller.cpp:87-104 | One epoll_ctl call under the rules of epoll_ctl(2), refused calls counted. |
| Epoll.EpollPoller.FillActiveChannels | ZEpollPoller/epollpoller.cpp:80-86 | The active list is the returned channels in order, each holding the mask returned for it. |
| TcpConn.TcpConnection.constructor | ZTcpConnection/TcpConnection.cpp:18-29 | A connecting connection with empty buffers and an unregistered channel; the poller stays sound and knows one channel more. |
| TcpConn.TcpConnection.Send | ZTcpConnection/TcpConnection.cpp:36-49 | On the loop's own thread: nothing unless connected, otherwise what `sendInLoop` does under any reading of its text; in the poller only this channel's entries change. |
| TcpConn.TcpConnection.SendInLoop | ZTcpConnection/TcpConnection.cpp:51-120 | Under any value of the uninitialised variable, either reading of the test, any errno left over and any memory around the data: exactly the stream, buffer, interest and notifications of `ConnSpec.SendInLoopText`; in the poller only this channel's entries change, and agreement is kept. |
| TcpConn.TcpConnection.SendAsMeant | ZTcpConnection/TcpConnection.cpp:51-120 | Under the intended reading: the send the runs are about, with the same effect on the poller. |
| TcpConn.TcpConnection.Shutdown | ZTcpConnection/TcpConnection.cpp:125-132 | On the loop's own thread: connected becomes disconnected, and the write side is shut down at once or left to the drain. |
| TcpConn.TcpConnection.ShutdownInLoop | ZTcpConnection/TcpConnection.cpp:134-145 | The write side is shut down exactly when no write events are wanted. |
| TcpConn.TcpConnection.ConnectEstablished | ZTcpConnection/TcpConnection.cpp:150-161 | Connected, tied, reading, and the connection callback told once, before anything it does; in the poller only this channel's entries change, and agreement is kept. |
| TcpConn.TcpConnection.ConnectDestroyed | ZTcpConnection/TcpConnection.cpp:163-172 | Goes down first if still connected, with the callback told; always ends unregistered; in the poller only this channel's entries change, and agreement is kept. |
| TcpConn.TcpConnection.HandleRead | ZTcpConnection/TcpConnection.cpp:174-192 | Bytes are appended to the input and handed on, end of stream closes, an error changes nothing; the poller as above. |
| TcpConn.TcpConnection.HandleWrite | ZTcpConnection/TcpConnection.cpp:194-232 | Delivers a prefix of the output; when that was all, write events go off, completion is announced and a deferred half-close is made; the poller as above. |
| TcpConn.TcpConnection.HandleClose | ZTcpConnection/TcpConnection.cpp:234-243 | Down, silent, both callbacks called once, in that order; the poller as above. |
| TcpConn.TcpConnection.RunCall | main.cpp:63-70 | One application call, the echo's `onMessage` among them, has on the buffers and channel exactly the effect it has on the value; the poller as above. |
| TcpConn.TcpConnection.HandleEvent | ZChannel/channel.cpp:101-127 | One dispatched event runs the callbacks due, in order, on one and the same connection, whatever they do to it in between; the poller as above. |
| TcpConn.TcpConnection.SetHighWaterMarkCallback | include/tcp_connection.hpp:40 | From now on every climb over the mark is announced; those before are not. |
| TcpConn.TcpConnection.LeavesAlone | ZEpollPoller/epollpoller.cpp:43-78 | Another connection of the same poller stays sound and looks the same. |
| LoopConnections.Connect | ZTcpServer/tcp_server.cpp:69 | A new connection on a poller that has others: all are sound, the others look the same, the registration gains one new channel and agreement is kept. |
| LoopConnections.Serve | ZEventLoop/event_loop.cpp:57-59 | One step of one of a poller's connections changes that one as `ConnRuns.Do` says; every other stays sound and looks the same; and the poller's registration moves by exactly the calls the channel recorded meanwhile, all lawful, so that table, kernel set and indices still agree. |
| LoopConnections.Release | ZTcpConnection/TcpConnection.cpp:31-34 | When a connection whose channel left the table goes, its channel goes with it: the others stay sound and look the same, agreement is kept, and the descriptor is free to be used again on the poller. |
| ConnRuns.SendEffect | ZTcpConnection/TcpConnection.cpp:51-120 | A send in a sound state leaves a sound state: all its bytes are accepted and either delivered or waiting in order, or all are refused because of a fault; later values extend earlier ones. |
| ConnRuns.EnqueueEffect | ZTcpConnection/TcpConnection.cpp:107-119 | Buffering leaves write events on iff there is output, and notifies exactly on the climb over the mark. |
| ConnRuns.WriteEffect | ZTcpConnection/TcpConnection.cpp:194-232 | A drain keeps stream, write interest, half-close and high-water count right, and does nothing once closed. |
| ConnRuns.CloseEffect | ZTcpConnection/TcpConnection.cpp:234-243 | One down, one close callback, whatever the callback does meanwhile. |
| ConnRuns.DestroyEffect | ZTcpConnection/TcpConnection.cpp:163-172 | From every sound state: unregistered, with a down only if it was still up, stream and high-water count kept; and sound as a closed connection is, if and only if it was closed, connected, or shut down with nothing waiting. |
| ConnRuns.EventUnfolds | ZChannel/channel.cpp:101-127 | An event is read, then write, then close, each if due; errors change nothing. |
| ConnRuns.EventCloses | ZChannel/channel.cpp:101-127 | The exact number of closes an event makes, for every mask and read result, on a connection closed any number of times before, and the channel state each leaves. |
| ConnRuns.LifeKeptIff | ZChannel/channel.cpp:110-126 | An event keeps the life of an open connection in order if and only if it is not PRI and HUP without IN with end of stream; in that case there are two downs and the channel is back in the kernel set. |
| ConnRuns.ClosedTwice | ZChannel/channel.cpp:110-126 | The event in point: on a fresh connection it leaves the history up, down, down and the channel in the kernel set. |
| ConnRuns.ConnectionRun | ZTcpConnection/TcpConnection.cpp:36-243 | Over every run: delivered followed by waiting output is all accepted; write events on iff open and output waits; half-close at most once and exactly when drained; notifications since the callback was set = drains to below the mark since, + 1 if now at or above; the state and all histories only move forward. |
| ConnRuns.HalfCloseWaitsForOutput | ZTcpConnection/TcpConnection.cpp:125-145 | Once shut down and until closed, the write side was shut down iff everything accepted was delivered; then nothing is accepted or delivered ever after. |
| ConnRuns.LifeCycleRun | ZTcpConnection/TcpConnection.cpp:150-243 | Over every run the connection is waiting, closed some number of times, or destroyed no more often than closed, with one down per close; over every run without a doubly closing event closed at most once, so that the callback history is a prefix of up, down. |
| ConnSteps.SendOutcome | ZTcpConnection/TcpConnection.cpp:51-120 | A send is refused if and only if nothing waits and its write meets EPIPE or ECONNRESET. In every other case, a full socket among them, all its bytes are accepted: what the socket takes is delivered, the rest stands at the end of the output with EPOLLOUT wanted, and exactly the notices due are queued, the climb to 64 MiB with its size. |
| ConnSteps.RunRefusesNothing | ZTcpConnection/TcpConnection.cpp:86-100 | Over every run of any application in which no write of a send meets EPIPE or ECONNRESET, no byte of any send is given up. |
| ConnSteps.DrainOutcome | ZTcpConnection/TcpConnection.cpp:194-232 | A drain delivers as much from the front of the output as the socket takes, all of it or nothing else changed; with the last byte EPOLLOUT goes off, completion is announced if wanted, and the write side is shut down if a half-close waits. |
| ConnSteps.WritableEventsDrain | ZTcpConnection/TcpConnection.cpp:194-232 | Over a row of writable events, in whatever portions and with whatever failures between: the same, for all the room there was together. |
| ConnSteps.EnoughRoomDeliversAll | ZTcpConnection/TcpConnection.cpp:194-232 | With room for what waits, everything accepted is delivered. |
| ConnSteps.ShutdownOutcome | ZTcpConnection/TcpConnection.cpp:125-145 | A connected connection is disconnected, its write side shut down at once if and only if nothing waits; any other is left alone. |
| ConnSteps.HalfCloseFollows | ZTcpConnection/TcpConnection.cpp:125-145 | After `shutdown`, once the socket took what waited, the write side is shut down, once, behind everything accepted. |
| ConnSteps.TakeOutcome | ZBuffer/buffer.cpp:18-25 | Taking drops that many bytes, or all, from the front of the input and nothing else. |
| ConnSteps.ReadKeepsTail | ZTcpConnection/TcpConnection.cpp:174-192 | A read puts its bytes behind the input before the application sees it; an error changes nothing. |
| ConnSteps.InputStaysTail | ZTcpConnection/TcpConnection.cpp:174-192 | Over every run the input is the end of what was read: no byte is lost, repeated or moved before the application takes it. |
| ConnSteps.UpOutcome | ZTcpConnection/TcpConnection.cpp:150-161 | Established, a connection is connected, unless its own callback shuts it down. |
| ConnSteps.CloseOutcome | ZTcpConnection/TcpConnection.cpp:234-243 | Closed, it is disconnected and wants none of the five events. |
| ConnSteps.CompletionStaysWanted | include/tcp_connection.hpp:38 | A completion callback set when the connection is made stays set over every run. |
| ConnSteps.WatchIsHeard | include/tcp_connection.hpp:40 | Setting the high-water callback sets it, and changes nothing else of the connection. |
| SendText.IntentIsSendInLoop | ZTcpConnection/TcpConnection.cpp:51-120 | With 0 to start from and the sign tested, the text does exactly what is meant. |
| SendText.TextKeepsStreamIff | ZTcpConnection/TcpConnection.cpp:53-114 | As written, a send keeps the stream whatever lies around the data if and only if: with nothing waiting, the write does not fail and does not take 0 bytes of a non-empty send under a left-over fault; with output waiting, the uninitialised offset is 0 or there is nothing to send. |
| SendText.TextNotices | ZTcpConnection/TcpConnection.cpp:71-119 | As written, whatever it buffers: completion is announced only of a direct write that took all of a non-empty send, a climb to 64 MiB with the size then waiting, and EPOLLOUT is wanted with every byte buffered. |
| SendText.HarmlessTextIsIntent | ZTcpConnection/TcpConnection.cpp:51-120 | In those cases it does what is meant, except that an empty direct send announces no completion. |
| SendText.TextBreaksStream | ZTcpConnection/TcpConnection.cpp:68-114 | The first send on a fresh connection to a full or broken socket buffers one byte from before the caller's data. |
| SendRuns.RunKeepsStreamIff | ZTcpConnection/TcpConnection.cpp:51-120 | As written, a run of sends, drains and all else keeps the stream at all times, whatever lies around the data of its sends, if and only if each send is harmless when its turn comes. |
| SendRuns.AnswerIsOnMessage | main.cpp:63-70 | As it is meant, an answer in such a run is a dispatched read under the echo's `onMessage`. |
| SendRuns.EchoKeptIff | main.cpp:63-70 | As written, over every run of answers, drains, closes and connectDestroyed of an established connection, whatever its callbacks do once it is down: the echo gives back exactly what arrived, at all times and whatever lies around the data, if and only if each of its sends is harmless when its turn comes. An answer comes only while the connection is up. |
| Echo.EchoDeliversPrefix | main.cpp:50-70 | Over every run of one echo connection: input empty between steps, and delivered followed by waiting output is all received if and only if no send was refused, which only a write that meets EPIPE or ECONNRESET brings about; every received byte is delivered, waiting or refused. |
| EventLoops.EventLoop.constructor | ZEventLoop/event_loop.cpp:27-40 | Nothing queued, nothing run, counter 0. |
| EventLoops.EventLoop.Quit | ZEventLoop/event_loop.cpp:68-74 | The flag is set, with a wake-up from any other thread. |
| EventLoops.EventLoop.RunInLoop | ZEventLoop/event_loop.cpp:80-86 | At once on the loop's own thread, else queued with a wake-up. |
| EventLoops.EventLoop.QueueInLoop | ZEventLoop/event_loop.cpp:88-98 | Last in the queue, with a wake-up unless on the own thread while no functors run. |
| EventLoops.EventLoop.Wakeup | ZEventLoop/event_loop.cpp:101-107 | The counter is positive afterwards, one more unless full. |
| EventLoops.EventLoop.HandleRead | ZEventLoop/event_loop.cpp:125-131 | The counter is 0. |
| EventLoops.EventLoop.DoPendingFunctors | ZEventLoop/event_loop.cpp:133-146 | Runs the swapped-out queue in order, whatever the functors queue meanwhile. |
| EventLoops.EventLoop.Loop | ZEventLoop/event_loop.cpp:49-66 | Resets the flag and takes turns until something quits, for every script of turns. |
| LoopSpec.OneBatchPerPass | ZEventLoop/event_loop.cpp:133-146 | A pass runs exactly the functors queued before it; those queued by the functors wait, in order, and then the counter is positive. |
| LoopSpec.TurnRunsAll | ZEventLoop/event_loop.cpp:54-62 | After a turn everything queued up to its dispatch has run, in order, and what still waits is announced.; a turn that found the wake-up channel active leaves the loop to sleep, unless its functors queued more. |
| LoopSpec.LoopStopsAfterQuit | ZEventLoop/event_loop.cpp:49-74 | The loop takes exactly the turns up to and including the first in which something quits. |
| ThreadPool.EventLoopThreadPool.constructor | ZEventLoop/event_loop_thread_pool.cpp:7-8 | No io loops, position 0. |
| ThreadPool.EventLoopThreadPool.Start | ZEventLoop/event_loop_thread_pool.cpp:12-27 | One io loop per thread, in order, behind any there already. |
| ThreadPool.EventLoopThreadPool.GetNextLoop | ZEventLoop/event_loop_thread_pool.cpp:30-40 | Returns the loop at the position, or the base loop when there is no other, and moves on, wrapping. |
| ThreadPool.RoundRobinIsFair | ZEventLoop/event_loop_thread_pool.cpp:30-40 | Call k picks loop k mod n, and after k calls every loop was picked k div n or one more time. |
| Naming.AddressLength | ZInetAddress/inet_address.cpp:15-22 | An address and port print in at most 21 characters. |
| Naming.AddressText | ZInetAddress/inet_address.cpp:15-22 | An address prints as its four numbers with dots between and its port behind a colon: what is read back from the text. |
| Naming.DecimalIsPlain | ZInetAddress/inet_address.cpp:15-22 | Numbers print in digits only, without leading zeros, so there is one such text. |
| Naming.DecimalRoundTrip | ZTcpServer/tcp_server.cpp:50 | Reading a printed number gives it back. |
| Naming.SuffixFits | ZTcpServer/tcp_server.cpp:49-50 | For every id up to 2^31 - 1 the suffix has at most 33 characters and is never truncated. |
| Naming.NameText | ZTcpServer/tcp_server.cpp:48-52 | A connection's name is the server's, a dash, the address, a number sign and the id, all of it, for every id up to 2^31 - 1. |
| Naming.NamesAreDistinct | ZTcpServer/tcp_server.cpp:48-52 | Two names of one server are equal if and only if the ids are. |
| TcpServers.TcpServer.constructor | ZTcpServer/tcp_server.cpp:14-19 | No connections, first id 1, not started. |
| TcpServers.TcpServer.Start | ZTcpServer/tcp_server.cpp:36-43 | The first start makes the io loops; later ones change nothing but their count. |
| TcpServers.TcpServer.NewConnection | ZTcpServer/tcp_server.cpp:45-77 | A new connection with the next id on the next loop, entered under its own name; established at once iff there are no io loops. |
| TcpServers.TcpServer.RemoveConnectionInPool | ZTcpServer/tcp_server.cpp:84-90 | The entry of this connection's name leaves the map, and no other. |
| SystemRuns.StepKeepsInv | ZEventLoop/event_loop.cpp:49-146 | Every step of every thread, with any events, keeps the invariant of the whole server: queues in order, wake-ups owed, every close accounted for, sound connections, map, descriptors, and no dangling pointer followed. |
| SystemRuns.ServerRun | ZTcpServer/tcp_server.cpp:45-90 | The invariant holds at the end of every run of a server with any number of io loops. |
| SystemTheorems.RegisteredIsOwned | ZEpollPoller/epollpoller.cpp:43-78 | In every reachable state a connection whose channel is registered, by its index, is strongly referenced by the map, a queued, swapped or pending functor, or a running handler; `SystemRegistration` ties the index to the table. |
| SystemTheorems.ReleasedOnlyAfterDestroy | ZTcpConnection/TcpConnection.cpp:150-172 | A connection nobody refers to was established, closed, and destroyed once for every close, told up and a down per close, is unregistered, out of the map, and no functor of it is left. |
| SystemTheorems.DispatchIsSafe | ZEventLoop/event_loop.cpp:54-62 | Every connection still on an active list is registered on that loop, in the kernel set and owned, even when io loop and base loop are one; no channel pointer was ever followed after its owner was released. |
| SystemTheorems.DescriptorsDiffer | ZTcpServer/tcp_server.cpp:69-70 | Existing connections, and so all registered channels, have different descriptors. |
| SystemTheorems.MapHoldsLiveConnections | ZTcpServer/tcp_server.cpp:70-88 | The map holds exactly the connections of whose closes no removal has run, each under its own name. |
| SystemTheorems.EveryCloseIsAccountedFor | ZTcpServer/tcp_server.cpp:76-90 | For any events: every close is accounted for once, by its removal in flight, its connectDestroyed in flight, or its connectDestroyed having run; connectEstablished is in flight or ran, once. |
| SystemProjection.OneFunctorPerStage | ZTcpServer/tcp_server.cpp:76-90 | A connection that no event closed twice, whatever happened to others, is at one of five stages, and exactly the one functor that ends the stage is in flight, once; so teardown happens once under every interleaving. |
| SystemWitness.ReleaseHappens | ZTcpServer/tcp_server.cpp:45-90 | A run exists in which a connection is accepted, its peer closes, and it is destroyed and released. |
| SystemTheorems.QuiescentServerOwnsOnlyItsMap | ZTcpServer/tcp_server.cpp:79-90 | When nothing is left to run or push, the existing connections are exactly those in the map, all of them up and registered: nothing leaks. |
| SystemTheorems.FunctorsRunOnceInOrder | ZEventLoop/event_loop.cpp:88-146 | With concurrent producers and functors that queue more: run, rest of the batch and queue together are the history of queued functors, in order, and each waits at its own loop. |
| SystemAccounts.EveryFunctorIsQueuedOnce | ZEventLoop/event_loop.cpp:88-98 | Over every run: how often a functor of the application has run or waits is how often it was asked for, and every completion or high-water notice a connection announced is a functor that has run or waits, once. |
| SystemAccounts.RunsAtHome | ZEventLoop/event_loop.cpp:133-146 | A functor runs on the loop it belongs to, a notice on that of its connection. |
| SystemAccounts.HandlerHoldsOn | ZChannel/channel.cpp:14-25 | From the step in which a thread starts to handle or run something of a connection, as long as that left it anything to push or wake, the connection is strongly referenced, whatever other threads do. |
| SystemAccounts.ActiveAreHandledInOrder | ZEventLoop/event_loop.cpp:54-62 | Over every run until the next poll: the channels handled, followed by those still to be handled, are the channels the last poll returned, in order; so all are handled, once, before the functors run. |
| SystemAccounts.WakeUpsAreConsumed | ZEventLoop/event_loop.cpp:101-131 | Over every run the wake-up channel ends no more polls of a loop than wake-ups were written to it: handling it brings the counter back to 0. |
| SystemAccounts.PushThenWakeIsQueue | ZEventLoop/event_loop.cpp:88-98 | The two steps in which a loop's thread queues a functor are together one `LoopSpec.Queue`, which `EventLoops.EventLoop.QueueInLoop` is proved against; on its own loop, while no functors run, the push alone is. |
| SystemAccounts.ForeignPushIsQueue | ZEventLoop/event_loop.cpp:68-98 | Likewise for a user thread; and its quit, with the wake-up behind it, is `EventLoops.EventLoop.Quit`. |
| SystemTheorems.NoLostWakeUp | ZEventLoop/event_loop.cpp:88-146 | A loop committed to polling with a functor queued or quit set can be ended by its wake-up channel at once, or some thread still owes it the wake-up. |
| SystemTheorems.DebtorsAreAwake | ZEventLoop/event_loop.cpp:88-107 | Whoever owes a wake-up is never blocked itself: a user thread can write it at once, and a loop's thread is handling or running with its next push or wake-up enabled. |
| SystemTheorems.NoLostWakeUpIff | ZEventLoop/event_loop.cpp:49-98 | No run loses a wake-up if and only if no loop's own thread queued a functor before entering the loop. |
| SystemTheorems.EarlyFunctorIsLost | ZEventLoop/event_loop.cpp:95-97 | Such a functor is lost in two steps: the loop is entered and commits to polling with nothing to end the poll. |
| SystemTheorems.QuitLastsIff | ZEventLoop/event_loop.cpp:49-74 | A quit lasts, whatever any thread does next, if and only if the loop was already entered. |
| SystemTheorems.EarlyQuitIsLost | ZEventLoop/event_loop.cpp:51 | The case in point: after a quit from another thread before `loop()` the loop enters and commits to polling. |
| SystemTheorems.QuitEndsTheLoop | ZEventLoop/event_loop.cpp:49-74 | Over every run, a quit after entry sticks and the loop polls at most once more, only if it was past its test; that it then ends is `SystemQuit`. |
| SystemQuit.QuitStopsTheLoop | ZEventLoop/event_loop.cpp:49-66 | From every reachable state in which an entered loop is told to quit, its thread has steps of its own, and of no other thread, after which it has left `loop()`. |
| SystemQuit.EveryQuitStops | ZEventLoop/event_loop.cpp:49-74 | In every infinite schedule of all threads, with any events, in which the thread keeps getting on until it has stopped: when any thread quits the loop after its entry, it stops. |
| SystemQuit.StoppedByQuit | ZEventLoop/event_loop.cpp:54 | A loop that has stopped, or is told to, was told to by some quit of the run. |
| SystemQuit.StoppedIsOver | ZEventLoop/event_loop.cpp:54-66 | A stopped loop takes no further step of its own, runs no more functors, and stays stopped. |
| SystemTheorems.OnlyOwnLoopTouches | ZTcpServer/tcp_server.cpp:76-89 | Only the thread of a connection's own loop ever changes the connection: for events and functors this is proved, for application calls it is the step's guard. |
| SystemTheorems.NoLoopIsStuck | ZEventLoop/event_loop.cpp:54-62 | Every loop that has not stopped has a step of its own to take in every reachable state. |
| SystemProgress.QueuedFunctorsRun | ZEventLoop/event_loop.cpp:49-66 | From every reachable state the thread of a loop that has not stopped and is not told to quit has steps of its own, and of no other thread, after which every functor queued by now has run, in the order of the queue. |
| SystemProgress.EveryFunctorRuns | ZEventLoop/event_loop.cpp:49-146 | In every infinite schedule of all threads, with any events, in which nobody quits the loop and its thread keeps getting on with its own code, every functor queued by any moment has run at some later one. |
| SystemProgress.OwnCodeGetsNearer | ZEventLoop/event_loop.cpp:54-146 | Every step of a loop's own code, whatever epoll returns and callbacks do, brings the first n functors nearer to having run: fewer swaps, phases, or active channels and functors of the batch are left. |
| SystemProgress.OthersKeepPlace | ZEventLoop/event_loop.cpp:68-107 | No other step of any thread, short of a quit, sets the loop back; and pushing what a handler left comes to an end. |
| SystemProjection.RunProjects | ZTcpConnection/TcpConnection.cpp:150-243 | From any sound state, a run of the server is for each connection a lawful run of it: established once and first, events only while in the kernel set, destroyed after a close and no more often. |
| SystemProjection.NewcomerProjects | ZTcpServer/tcp_server.cpp:69-76 | The same from a fresh connection, for connections made during the run. |
| SystemProjection.EveryConnectionIsSound | ZTcpConnection/TcpConnection.cpp:36-243 | In every reachable state of the server, for any application and any events, every connection's stream, write interest, half-close and high-water count are right, and its callback was told up once and one down per close. |
| SystemProjection.EveryConnectionWantsRightly | ZChannel/channel.cpp:61-80 | In every reachable state of the server every connection wants exactly the event bits of `InterestBits.RunWantsRightly`. |
| SystemProjection.OnlyConnectDestroyedUnregisters | ZEventLoop/event_loop.cpp:54-62 | Of all steps of all threads only the connection's own loop running its connectDestroyed from the swapped queue, with no active channel left to handle, takes a channel out of a poller's table. |
| SystemProjection.ConnectionsOnlyAdvance | ZTcpConnection/TcpConnection.cpp:36-243 | Whatever the threads do next, states and histories of a connection only move forward. |
| SystemProjection.EchoServerDeliversPrefix | main.cpp:50-70 | End to end, over every run of the echo server with any loops, connections, read sizes, partial writes and interleavings, of each connection that no event closed twice: what a peer was sent and what waits for it is what it sent, if and only if none of its sends was refused, and so whenever none of them met EPIPE or ECONNRESET; what it was sent is then always a prefix. |
| SystemBalance.ConnectionsAreDealtEvenly | ZTcpServer/tcp_server.cpp:47-48 | In every reachable state each of n io loops was given k div n of the k connections made, or one more, and connection i is on loop (i - 1) mod n. |
| ConnRegistration.StepAsks | ZChannel/channel.cpp:61-100 | Every step of a connection, from any state, only lengthens the history of its channel's calls, and its channel is then exactly what these calls made of it. |
| ConnRegistration.TeardownAsks | ZTcpConnection/TcpConnection.cpp:163-172 | The calls of teardown, one by one: a close asks for the end of all events; connectDestroyed asks for that if the connection is still up, then for removal; the callbacks meanwhile ask for nothing. |
| ConnRegistration.AsksAreLawful | ZEpollPoller/epollpoller.cpp:43-78 | In any registration in agreement the calls of one channel are lawful, keep the agreement, and move this channel and no other. |
| SystemRegistration.NobodyElseAsks | ZEpollPoller/epollpoller.cpp:43-104 | Only the connection a step works on makes calls in it, so the calls of a run are all of them. |
| SystemRegistration.OpeningIsLawful | ZEventLoop/event_loop.cpp:27-40 | The wake-up channel, and on the base loop the acceptor's, are made and enabled for reading, and are then exactly what table and kernel set hold. |
| SystemRegistration.ServerRunRegisters | ZEpollPoller/epollpoller.cpp:43-104 | For every run of the server and each loop: the calls that the loop's opening and the run itself make on its poller, in their order, are lawful on an empty registration and none is refused; after them the table holds exactly the loop's own channels and the registered connections, the kernel set exactly those that want events, with those events. |
| SystemRegistration.KernelWatches | ZEpollPoller/epollpoller.cpp:87-104 | After every run: of a connection that is up the kernel watches EPOLLIN and EPOLLPRI, and EPOLLOUT exactly while output waits. |
| SystemRegistration.TableIsOwned | ZEpollPoller/epollpoller.cpp:43-78 | Whatever those calls left in a poller's table, beside the loop's own channels, is a connection of that loop to which a strong reference exists. |

## Left out

- TcpConn.TcpConnection.Send: only on the loop's own thread, because from another thread the code passes a borrowed pointer to the caller's string (ZTcpConnection/TcpConnection.cpp:46).
- TcpConn.TcpConnection.Shutdown: only on the loop's own thread, because from another thread the code changes the state unsynchronised (ZTcpConnection/TcpConnection.cpp:129).
- TcpConn.TcpConnection.HandleRead: the error branch only logs and reads SO_ERROR, so it changes nothing.
- EventLoops.EventLoop.Loop: the poller and the channels of the loop object are the environment's script, in which other threads queue until the return of each poll and while functors run; every interleaving is in `ServerSystem`.
- ThreadPool.EventLoopThreadPool.Start: the threads' creation, their handshake and the init callback; the io loops are given as already built.
- TcpServers.TcpServer.RemoveConnectionInPool: the functor it queues on the connection's loop is a step of `ServerSystem`, not of the class.
- TcpServers.TcpServer.Start: the acceptor's `listen` is left out; enabling its channel is in `SystemRegistration.Opening`.
- TcpServers.TcpServer.NewConnection: yields what never changes of the connection and whether it is established at once; making the object is `LoopConnections.Connect`, running or queuing connectEstablished a step of `ServerSystem`.
- EventLoops.EventLoop.constructor: the loop object has no poller, so registering the wake-up channel is not part of it; that is `SystemRegistration.Opening`.
- EventLoops.EventLoop.RunInLoop: on the own thread it reports that the caller is to run the functor at once.
- The destructor of the server while io loops run, and functors thrown away when a loop ends.
- Strong references the application keeps for itself beyond its callbacks.
- Real system calls, sockets, addresses other than printing, logging, timestamps, thread ids.
- The growth of the poller's list of returned events (ZEpollPoller/epollpoller.cpp:30-32), and poll timeouts, which are polls that return nothing.
- Exceptions from allocation, overflow of size_t, and appending from the buffer's own storage.
- Masks are records of the five bits the code names; other bits are ignored by it.
- The commented-out file sending and the unused `kDisconnecting` state: dead code.
