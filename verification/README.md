# Verification of the reactor chat server

A Dafny model of the stateful core of the server: the connection buffer and the line protocol,
the poller and its kernel, the connection's whole life on its loop, the event loops with their task
queues, the connection table, the timer queue, the double-buffered logger, the rooms and chat
commands, and the idle kick. `dafny verify dfyconfig.toml` checks everything.

Two layers meet here.

- **Classes** follow the code: fields updated in place, the same branches, loops with invariants.
  The kernel is a class whose methods answer nondeterministically within what the system calls
  allow, and whose preconditions are the calls' legality rules. A class shows its state as a value
  (`View()`), and each method says which value it leaves.
- **Transition systems** carry what is said of whole runs. `Links` is the life of one connection:
  every operation, round of a read or write loop, callback and action of the peer is one step, and
  the methods of `Connection.TcpConnection` are proved to move along such lives. `Reactor`
  interleaves any number of loops and other threads at every queue push, eventfd write, poll, event
  and task, and at the check and the set of `shutdown` (theorems in `ReactorTheorems`,
  `ReactorProgress` and `ReactorLimits`); `Loops.EventLoop` and `Server.TcpServer` are
  the imperative forms of what it does to one loop and to the connection table. `Rooms` runs the
  turns of all connections on the chat state, and `ChatServer.ChatServer` keeps the log of the turns
  its handlers have taken. `Logging`, `Idle`, `Timers`, `Locks` and `Deferred` have runs of their own.

## What is proved

- **Delivery.** For each receiving connection and each sending thread, what the connection accepts
  is an initial part of what that thread sent, in order, in every interleaving
  (`ReactorTheorems.SenderOrder`); nothing is lost while it stays connected. `EndToEnd.ClientSees`
  puts this together with the chat layer, the write path and the line protocol: the bytes a client
  received, in any chunks, decode to the first messages accepted for it, whole and once each, and
  those of one thread are, in order, the first that its turns in the rooms told this client.
- **Life cycle.** Some reference holds a connection from accept to the end of its clean-up; the
  clean-up runs once, after the close, outside the round of active channels; the descriptor is
  closed only when no poller lists it (`ChainOfCustody`, `DestroyedInOrder`, `DestroyedOnce`,
  `ActiveChannelsAlive`).
- **Write path.** Bytes accepted are bytes written followed by the output buffer, for all short
  writes, in both trigger modes; SHUT_WR comes at most once, after the last byte, and nothing
  follows it (`Links.HalfCloseAfterFlush`, over every life). The kernel keeps a record of the write
  calls, so that flushing says which bytes were offered to it, and in which order.
- **Wake-ups.** No loop sleeps on queued work, except on what its own thread queued before `loop()`
  (`NoLostWakeup`, an equivalence over every state of every run). One turn of a loop runs all that
  was queued before the turn (`Loops.EventLoop.Iterate`).
- **Chat.** The members of a room are exactly the connections whose session names it and which have
  not left, in every run (`Rooms.RunKeeps`), and the handlers only take the clean turns that this
  needs (`ChatServer.AnswerClean` and the contracts of the handlers); where a connection is depends
  on its own steps alone (`OwnStepsDecide`); a closed one is in no room for good
  (`Lifecycle.ClosedIsOut`). Every handler is proved with other threads acting between any two of
  its steps.
- **Timers, logger, idle kick, locks**: see the table.

Where the code does less than its comments or an obvious reading promise, the code is kept, a
witness shows it, and the exact condition is a lemma:

| what may happen | witness | exact condition |
|---|---|---|
| a loop sleeps on a functor queued before `loop()` | `ReactorTheorems.EarlyTaskSleeps` | `NoLostWakeup`, `EarlyWork` |
| a message of another thread is overtaken by the owner's | `ReactorLimits.Overtaking` | `OvertakesWhenInFlight` |
| `shutdown` from another thread sets a closed state back | `ReactorLimits.LateShutdown` | `StatesGoBackExactly` |
| `shutdown` from another thread issues SHUT_WR twice | `Deferred.ShutsTwice` | `ShutsOnceExactly` |
| one event closes a connection twice | `Links.ClosesTwice` | `ClosesAtMostOnce`, `LiveAtEveryClose` |
| and its clean-up runs twice | `ReactorLimits.DestroyedTwice` | `HandedOverOnceExactly` |
| the message callback runs after the close callback | `Links.SpeaksAfterClose` | `CallsInOrder` |
| a failed write strands output in edge-triggered mode | `Links.Strands` | `StallsExactly`, `NeverStalls` |
| a closed connection is back in a room | `Lifecycle.ClosedComesBack` | `ClosedIsOut` |
| `disableAll` twice lists a descriptor again | `Poller.DisableUnlists` | `DisableUnlists` |
| a member of a room without a name cannot leave it | `Rooms.LeaveUndoesJoin` | `JoinAgrees`, `LeaveUndoesJoin` |

The first four need a caller, or a sender, on another thread or before the loop; the chat server
shuts connections down on their own loops only (`OwnerShutdownIsSafe`). The next three and the
closed connection that comes back need a hang-up event without plain input that still carries
something to read; a kernel that never gives one obeys the rule `Links.Ruled`, under which none of
them happens (`RuledNeverHungReads`, `RuledStaysOut`). The step `CloseEvent` of `Reactor` has this
rule in its guard.

## Model

| member | source | states |
|---|---|---|
| ByteBuffer.Buffer.Append | src/base/Buffer.h:33-37 | appending is sequence append; old bytes survive the move or the growth; the space bound max(8 + initial, 2 * peak + 7) holds |
| ByteBuffer.Buffer.EnsureWritable | src/base/Buffer.h:53-65 | room is made by a move when the free space suffices and by growth otherwise; contents unchanged, peak updated, bound kept |
| ByteBuffer.Buffer.MoveToFront | src/base/Buffer.h:59-64 | the overlapping forward copy inside one array loses and changes nothing |
| ByteBuffer.Buffer.Retrieve | src/base/Buffer.h:22-26 | drops a prefix, or everything when fewer bytes are there |
| ByteBuffer.Buffer.RetrieveAsString | src/base/Buffer.h:27-29 | the string handed out followed by what is left is the old contents |
| ByteBuffer.Buffer.FindEOL | src/base/Buffer.h:40-43 | the first newline of the readable region, or none |
| ByteBuffer.Buffer.ReadFd | src/base/Buffer.cc:5-22 | a scatter read appends exactly the bytes the kernel gave, across the overflow split; errors and end of stream change nothing |
| Codec.DecodeSound | src/chat/Codec.cc:6-14 | lines joined by newlines plus the remainder reproduce the input; neither holds a newline |
| Codec.DecodeComplete | src/chat/Codec.cc:6-14 | newline-free lines and remainder, once encoded, are read back exactly: decoding is a bijection |
| Codec.DecodeResumes | src/chat/Codec.cc:6-14 | decoding may stop anywhere in the stream and resume on the tail kept |
| Codec.ChunkInvariant | src/chat/Codec.cc:6-14 | for every split into chunks, one takeLines per chunk gives the lines and the tail of one call on the whole |
| Codec.TakeLines | src/chat/Codec.cc:6-14 | the draining loop computes that decoding, and leaves the unfinished line in the buffer |
| Codec.FormatIsFramed | src/chat/Codec.cc:16-19 | a broadcast of newline-free parts has exactly one newline, at its end |
| Codec.FormatReadsBack | src/chat/Codec.cc:16-19 | a broadcast can be taken apart again into room, nick and text |
| Codec.PrefixDecodes | src/chat/Codec.cc:6-19 | any received prefix of framed messages decodes to an initial run of them and a beginning of the next |
| Poller.EPollPoller.UpdateChannel | src/net/EPollPoller.cc:44-58 | after each update the index is Added iff the kernel lists the descriptor, with the channel's mask; every epoll_ctl issued is legal |
| Poller.EPollPoller.RemoveChannel | src/net/EPollPoller.cc:60-64 | erases only the channel's own entry, and the kernel's registration if there is one |
| Poller.EPollPoller.Poll | src/net/EPollPoller.cc:20-34 | every reported event yields its listed channel, in order, with its events; the array doubles when full |
| Poller.DisableUnlists | src/net/EPollPoller.cc:44-58 | an empty mask unlists a descriptor exactly when it was listed; a second time it is listed again |
| Poller.Channel.EnableWriting | src/net/Channel.h:39 | write interest reaches the kernel, raising an edge if there is room already |
| Poller.Channel.DisableAll | src/net/Channel.h:41 | the empty mask reaches the poller by the same rule |
| Connection.TcpConnection.SendInLoop | src/net/TcpConnection.cc:77-98 | takes the whole message or nothing by the state found; with nothing queued the kernel is offered the whole message, once, and gives the answer; the rest waits with write interest on; the result is a further point of the same life |
| Connection.TcpConnection.HandleWrite | src/net/TcpConnection.cc:100-121 | with interest on, the kernel is offered the whole output and, in ET mode while it takes bytes, each time what is left, until nothing is left or it takes nothing; in LT mode once; output shrinks by what was taken; every round is a step of the life |
| Connection.TcpConnection.Shutdown | src/net/TcpConnection.cc:123-137 | from Connected: Disconnecting, output untouched, and SHUT_WR issued at once exactly when nothing is left over; otherwise nothing |
| Connection.TcpConnection.HandleRead | src/net/TcpConnection.cc:45-64 | reads once in LT and until the kernel is empty in ET; bytes received are conserved and the message callback runs; the end of the stream closes exactly once; every round is a step of the life |
| Connection.TcpConnection.HandleClose | src/net/TcpConnection.cc:139-145 | the state ends, all interest is dropped, output may be left behind, the close is counted and the connection callback runs, whose sends and half-closes do nothing |
| Connection.TcpConnection.HandleEvent | src/net/Channel.cc:17-31 | a hang-up without plain input closes; input, urgent input or a peer shutdown is read, all of it in ET mode, and reaches the message callback; when room is reported, what is left over was offered to the kernel; all as steps of the life |
| Connection.TcpConnection.Turn | src/net/EventLoop.cc:41-43 | a report uses up the edge, says whether room is awaited and there, and its event is dispatched with the same results |
| Connection.TcpConnection.ConnectEstablished | src/net/TcpConnection.cc:27-33 | the connection is registered, readable, in its trigger mode, and live, and the connection callback runs, whatever it sends |
| Connection.TcpConnection.ConnectDestroyed | src/net/TcpConnection.cc:35-43 | from any state, with the connection callback when, and only when, it was still connected: afterwards neither the poller nor the kernel knows the descriptor |
| Connection.TcpConnection.Lifetime | src/net/TcpConnection.cc:8-145 | a connection used in any way, by any number of operations, events and peer actions, is always at a point of a life that started at its construction |
| Links.DispatchExactly | src/net/Channel.cc:17-31 | which of the four callbacks an event runs, by its bits, and in which order |
| Links.SendKeeps | src/net/TcpConnection.cc:77-98 | whatever part of a message the kernel takes at once, or whatever error it gives, no byte is lost and interest and buffer stay coupled |
| Links.FlushKeeps | src/net/TcpConnection.cc:105-120 | one round of the write loop keeps the order of bytes and shortens the output when the kernel takes any |
| Links.ReadKeeps | src/net/TcpConnection.cc:48-53 | bytes taken by a read go to the input in order: received plus waiting is constant; what the callback takes and what is left is what was received |
| Links.StepKeeps | src/net/TcpConnection.cc:27-145 | every operation, event, peer action and round of a loop keeps the invariant of a life and only moves it forward |
| Links.RunGood | src/net/TcpConnection.cc:27-145 | over every life: the invariant holds, states only move forward, and bytes sent, accepted, received and consumed only grow |
| Links.HalfCloseAfterFlush | src/net/TcpConnection.cc:77-137 | over every life: SHUT_WR at most once; a pending half-close has output and awaits room; after SHUT_WR every accepted byte is written and nothing more is written or accepted |
| Links.HalfCloseTakesEffect | src/net/TcpConnection.cc:123-137 | over every life: after the owner's half-close no byte is accepted, and whenever nothing is left over, until the connection is down, SHUT_WR has been issued |
| Links.ClosesAtMostOnce | src/net/Channel.cc:17-31 | the close callback runs at most once in a life if and only if the read callback of an event that has hung up never meets the end of the stream |
| Links.DoubleCloseEvent | src/net/Channel.cc:19-27 | such an event hung up without plain input, yet carried urgent input or a peer shutdown, and closes its connection once more |
| Links.LiveAtEveryClose | src/net/TcpConnection.cc:139-145 | a connection is live at every one of its closes if and only if no such event comes: what the guard of the closing step in the transition system leaves out |
| Links.ClosesTwice | src/net/Channel.cc:17-31 | a life in which the close callback runs twice |
| Links.CallsInOrder | src/net/Channel.cc:17-31 | the upper layer sees up, then messages, then down, once and nothing after, if and only if the read callback of an event that has hung up finds neither bytes nor the end of the stream |
| Links.QuietAfterClose | src/net/TcpConnection.cc:139-145 | then, after the close callback, nothing is received, consumed or accepted, no message callback runs, and the state stays Disconnected |
| Links.SpeaksLateExactly | src/net/TcpConnection.cc:45-64 | in any life: up comes first and once, and a message follows a down if and only if the read callback of a connection that is down finds bytes |
| Links.RuledNeverHungReads | src/net/Channel.cc:17-31 | a kernel whose hang-ups without plain input carry nothing to read never gives such an event |
| Links.SpeaksAfterClose | src/net/Channel.cc:17-31 | a life in which the message callback runs after the close callback |
| Links.FlushStalls | src/net/TcpConnection.cc:100-121 | a write round strands left-over output exactly when it failed for another reason than a full kernel, with room and no edge up |
| Links.StallsExactly | src/net/TcpConnection.cc:77-145 | of all the steps of a life only that one can strand output in edge-triggered mode |
| Links.NeverStalls | src/net/TcpConnection.cc:100-121 | over a whole life no left-over output is ever without an event to flush it, if and only if no such write happens |
| Links.Strands | src/net/TcpConnection.cc:115-119 | a life in which a failed write strands output for good |
| Deferred.ShutsOnceExactly | src/net/TcpConnection.cc:123-137 | with shutdowns from any thread SHUT_WR is issued at most once if and only if no half handed to the loop runs after it |
| Deferred.ShutsTwice | src/net/TcpConnection.cc:123-137 | one shutdown from another thread whose SHUT_WR is issued by the write loop and again by the half handed over |
| ReactorInvariant.InvKept | src/net/EventLoop.cc:38-107 | every step of every thread keeps the whole invariant: queues, wake-ups, custody, poller tables, active channels, order |
| ReactorInvariant.RunInv | src/net/EventLoop.cc:38-107 | the invariant holds in every state of every run |
| ReactorTheorems.SenderOrder | src/net/TcpConnection.cc:66-98 | per sender, accepted is always an initial part of what was or will be sent |
| ReactorTheorems.NothingLostWhileConnected | src/net/TcpConnection.cc:66-80 | while connected, what was sent and not accepted is exactly what waits in the queue or the sender's hands, in order |
| ReactorTheorems.RunGrows | src/net/TcpConnection.cc:27-145 | owners never change, states never go back, and nothing sent or accepted is taken back |
| ReactorTheorems.ExactlyOnce | src/net/EventLoop.cc:62-107 | executed, then the rest of the batch, then pending is the push history, in every state |
| ReactorTheorems.NoLostWakeup | src/net/EventLoop.cc:38-107 | in every state of every run: a loop sleeps on work, or on a request to quit, if and only if it entered with tasks only its own thread had queued and no other thread has pushed or asked to quit since |
| ReactorTheorems.EarlyWork | src/net/EventLoop.cc:38-71 | entering the loop, work waits unsignalled if and only if there is some and no other thread had queued or asked to quit |
| ReactorTheorems.EarlyTaskSleeps | src/net/EventLoop.cc:38-71 | a concrete run in which a loop sleeps on its own early functor |
| ReactorTheorems.ChainOfCustody | src/net/TcpServer.cc:27-51 | until its clean-up has run a connection is held; its descriptor is closed only when no poller and no kernel set lists it |
| ReactorTheorems.NoDanglingReference | src/net/TcpServer.cc:27-51 | whatever the table, a functor or a thread refers to exists |
| ReactorTheorems.DestroyedInOrder | src/net/TcpConnection.cc:35-43 | clean-up runs on the owner, after the close, out of the table, outside the round of channels, and erases its own entry |
| ReactorTheorems.DestroyedOnce | src/net/TcpServer.cc:42-51 | clean-up runs at most once in a run, for a kernel under which a connection closes only while it is live |
| ReactorTheorems.ActiveChannelsAlive | src/net/EventLoop.cc:41-43 | the raw channel pointers of a round belong to live connections of that loop until dispatched |
| ReactorTheorems.RegistrationLegal | src/net/EPollPoller.cc:44-64 | in every run, for such a kernel, a connection is registered, by a task or at once on the base loop, only under a descriptor unknown to the poller, closes only under its own, and is removed when its entry is its own and unwatched |
| ReactorTheorems.DescriptorFresh | src/net/EPollPoller.cc:44-64 | a descriptor the kernel hands out again is listed by no poller |
| ReactorLimits.AllAccepted | src/net/TcpConnection.cc:66-98 | all that was sent has been accepted, in whatever order, if and only if no message waits on the loop and no thread is about to push one |
| ReactorLimits.OvertakesWhenInFlight | src/net/TcpConnection.cc:66-74 | a direct send by the owner keeps the order of issue across senders if and only if no message waits on the loop and no thread is about to push one |
| ReactorLimits.Overtaking | src/net/TcpConnection.cc:66-74 | a run in which a message sent second is accepted first |
| ReactorLimits.HandedOverOnceExactly | src/net/TcpServer.cc:42-51 | in every run, second closes included, each connection is handed to its clean-up at most once at a time if and only if no event closes a connection that is down already |
| ReactorLimits.DestroyedTwice | src/net/TcpServer.cc:42-51 | a run in which one event closes a connection twice and its clean-up runs twice |
| ReactorLimits.StatesGoBackExactly | src/net/TcpConnection.cc:123-129 | in every run, with shutdowns from any thread, states never go back if and only if no shutdown that found its connection Connected sets the state after the close |
| ReactorLimits.LateShutdown | src/net/TcpConnection.cc:123-129 | a run in which another thread checks, the connection closes, and the thread sets the state back |
| ReactorLimits.OwnerShutdownIsSafe | src/net/TcpConnection.cc:123-129 | when only owners shut down, as in the chat server, no state ever goes back |
| ReactorLimits.DescriptorUsedAgain | src/net/TcpServer.cc:27-51 | a run in which a connection is accepted, held, closed, cleaned up and let go of, and the next one gets its descriptor |
| ReactorProgress.PushArrives | src/net/EventLoop.cc:62-71 | whatever a thread has begun to push is, at every later moment, still in its hands or in the history of the queue it was meant for |
| ReactorProgress.HalfCloseArrives | src/net/TcpConnection.cc:123-129 | a shutdown from another thread sets the state at once and its other half reaches the owner's queue |
| ReactorProgress.QuitIsObeyed | src/net/EventLoop.cc:38-52 | a request to quit a loop that was entered is never forgotten, and from the next top of the loop on it enters poll no more |
| ReactorProgress.NoSpuriousWakeup | src/net/EventLoop.cc:84-94 | the eventfd never passes its limit, is cleared by a read, and is raised only by a thread's wake-up |
| Loops.EventLoop.QueueInLoop | src/net/EventLoop.cc:62-71 | the task joins the history behind all earlier ones; a push from another thread, or from a functor, leaves the eventfd readable |
| Loops.EventLoop.RequestQuit | src/net/EventLoop.cc:48-52 | the request is recorded, and another thread's leaves the eventfd readable |
| Loops.EventLoop.DoPendingFunctors | src/net/EventLoop.cc:96-107 | runs all that was queued before, in order, while functors and other threads queue more |
| Loops.EventLoop.Iterate | src/net/EventLoop.cc:40-45 | one turn polls once, handles every channel reported, in order, and runs every task queued before it; the loop ends exactly when it finds the request to quit |
| Loops.EventLoop.EnterLoop | src/net/EventLoop.cc:38-40 | an earlier quit is forgotten; early work is exactly pending work without a signal |
| Loops.StepsAgree | src/net/EventLoop.cc:48-107 | whatever step any thread takes in the transition system, each loop changes by exactly one operation of the class, or not at all |
| Server.TcpServer.NewConnection | src/net/TcpServer.cc:27-40 | a new connection enters under a name no other has or had, goes to the next loop of the pool, and is established at once or by a task pushed there |
| Server.TcpServer.GetNextLoop | src/net/EventLoopThreadPool.cc:17-22 | round robin over the pool, the base loop when there is none |
| Server.TcpServer.EraseConnection | src/net/TcpServer.cc:42-51 | erasing by name removes that connection and no other, and its clean-up always goes through the owner's queue |
| Server.DecimalInjective | src/net/TcpServer.cc:28 | different counters give different names |
| Server.DecimalDenotes | src/net/TcpServer.cc:28 | the numeral in a name denotes the counter, without leading zeros |
| Server.TableAgrees | src/net/TcpServer.cc:27-51 | the transition system adds and removes the same connections, by an accept, an unlist task or a close on the base loop, and makes the same hand-overs |
| Timers.TraceInv | src/net/TimerQueue.cc:51-64 | no callback starts before its time; callbacks start in order; one that ran or is due is out of the heap |
| Timers.EarlierRunsFirst | src/net/TimerQueue.cc:51-68 | of two timers in the heap together the one due earlier runs earlier, whatever callbacks add |
| Timers.TimerQueue.AddTimer | src/net/TimerQueue.cc:33-38 | the timer joins the heap; the timerfd is set for it exactly when it is due before all others, and a non-empty heap has it set for its top |
| Timers.TimerQueue.ResetTimerfd | src/net/TimerQueue.cc:40-49 | the timerfd expires a microsecond from now at the earliest, not before the wanted time, and no later than that microsecond or than the wanted time plus what the call took |
| Timers.TimerQueue.HandleRead | src/net/TimerQueue.cc:51-68 | everything due by the reading of the clock has run, nothing later has, the old expiry is gone, and the timerfd is set for the top of the heap within the same bounds |
| Logging.LogBuffer.Append | src/base/AsyncLogger.h:29-45 | a buffer holds whole lines, one after the other |
| Logging.AsyncLogger.Append | src/base/AsyncLogger.cc:15-27 | a line goes whole to the current buffer, or to the next one after a rotation; nothing else changes |
| Logging.AsyncLogger.TakeBatch | src/base/AsyncLogger.cc:56-71 | queue and current buffer become the batch; the back end learns of a stop request in the same section |
| Logging.AsyncLogger.WriteOne | src/base/AsyncLogger.cc:73-76 | one buffer reaches the file, an empty one without a write |
| Logging.AsyncLogger.Recycle | src/base/AsyncLogger.cc:78-86 | a written buffer becomes the empty, unshared spare; the back end ends iff it saw the stop request |
| Logging.Account.StepKeeps | src/base/AsyncLogger.cc:15-87 | each critical section and each write keeps: file, rest of the batch, queue and current buffer are the appended lines |
| Logging.FileIsPrefix | src/base/AsyncLogger.cc:15-87 | in every interleaving the file is a run of whole lines in lock order; the rest is still in buffers |
| Logging.StopLosesNothing | src/base/AsyncLogger.cc:36-44 | once the back end has finished, all that was appended before stop's critical section is in the file |
| Logging.StopEndsBackEnd | src/base/AsyncLogger.cc:36-87 | after stop, until a new start, a back end that has taken a batch never waits again, but finishes |
| Rooms.JoinMoves | src/chat/RoomManager.cc:11-19 | a join puts a connection in the new room and in no other, and moves nobody else |
| Rooms.JoinAgrees | src/chat/RoomManager.cc:11-19 | a join keeps table and sessions in agreement if and only if the room has a name |
| Rooms.LeaveUndoesJoin | src/chat/ChatServer.cc:64-67 | a connection is still a member after join and leave if and only if the room has no name |
| Rooms.AtMostOneRoom | src/chat/RoomManager.cc:11-27 | no connection is in two rooms |
| Rooms.BroadcastReaches | src/chat/RoomManager.cc:29-35 | a broadcast reaches each member once and nobody else |
| Rooms.RunKeeps | src/chat/RoomManager.cc:5-35 | in every interleaving of clean steps rooms agree with sessions, names are newline-free and every message sent is one line |
| Rooms.HeardIsSaid | src/chat/RoomManager.cc:29-35 | what the turns of a run told a connection, turn by turn, is exactly what it was sent |
| Rooms.OthersSpare | src/chat/RoomManager.cc:5-35 | any number of steps of others leave a connection's rooms, session and earlier messages as they were |
| Rooms.OwnStepsDecide | src/chat/RoomManager.cc:11-27 | a connection's rooms and session depend on its own steps alone |
| Rooms.OutUntilReturn | src/chat/RoomManager.cc:21-27 | a connection that left is in no room until it joins or opens again, whatever others do |
| Lifecycle.ClosedIsOut | src/chat/ChatServer.cc:44-70 | after the close callback a connection is in no room for the rest of every run of the rooms its life takes part in, if and only if its read callback never finds bytes once it is down |
| Lifecycle.RuledStaysOut | src/chat/ChatServer.cc:44-52 | under the kernel's rule it always stays out |
| Lifecycle.ClosedComesBack | src/chat/ChatServer.cc:44-70 | a life and a run in which a closed connection joins a room again, for a kernel that breaks the rule |
| ChatServer.RoomManager.Join | src/chat/RoomManager.cc:11-19 | leaves the old room, updates the session, enters the new room |
| ChatServer.RoomManager.Leave | src/chat/RoomManager.cc:21-27 | leaves the room and keeps the session's room field |
| ChatServer.RoomManager.Broadcast | src/chat/RoomManager.cc:29-35 | one send to every member, in any order of the set |
| ChatServer.RoomManager.Members | src/chat/RoomManager.cc:37-47 | the nicknames of the members, each member once |
| ChatServer.ChatServer.OnConnection | src/chat/ChatServer.cc:44-52 | a new connection gets a session, the welcome and, when a timeout is set, its idle timer; a closed one leaves |
| ChatServer.ChatServer.Kick | src/chat/ChatServer.cc:35-37 | a client kicked for idling is told farewell in one line and then half-closed |
| ChatServer.ChatServer.OnLine | src/chat/ChatServer.cc:57-83 | each command takes its turns on session, rooms and recipients, all of them clean, with other threads acting between its two halves |
| ChatServer.ChatServer.OnMessage | src/chat/ChatServer.cc:54-84 | all complete lines are handled in order, the rest stays buffered, the session ends as the lines alone decide, and the turns taken extend a run of clean turns |
| ChatServer.ParseTyped | src/chat/ChatServer.cc:57-82 | reading a line and typing the command again are inverse, but for a missing room name and for text that is itself a command |
| ChatServer.DialogueFollows | src/chat/ChatServer.cc:54-84 | a client's room and name after its lines do not depend on other threads |
| ChatServer.SayReaches | src/chat/ChatServer.cc:79-82 | text typed in a room reaches everyone there once, under the sender's name, and nobody else |
| ChatServer.JoinAnnounced | src/chat/ChatServer.cc:62-70 | a newcomer is in the room under its name; the announcement is the last that everyone in the room is told, the newcomer too, and nobody else is |
| ChatServer.WelcomeTold | src/chat/ChatServer.cc:45-47 | a new client has a blank session and was last told the welcome |
| ChatServer.NickTold | src/chat/ChatServer.cc:58-61 | a client that takes a name has it and is told so |
| ChatServer.WhoTold | src/chat/ChatServer.cc:71-74 | /who is answered with the nicknames of the members of the client's room, each once |
| ChatServer.HintTold | src/chat/ChatServer.cc:64-78 | without a room to join or to speak in the client alone is told so, and nothing else changes |
| ChatServer.QuitTold | src/chat/ChatServer.cc:75-76 | /quit half-closes the client and changes nothing else |
| ChatServer.KickTold | src/chat/ChatServer.cc:35-37 | a kicked client is told farewell next and is half-closed |
| ChatServer.AnswerClean | src/chat/ChatServer.cc:57-83 | every turn a handler takes is clean: names that cannot break a line, rooms that have a name, messages that are one line |
| Idle.RunGood | src/chat/ChatServer.cc:24-48 | one outstanding timer while connected, due no earlier than the timeout after the input it was armed on |
| Idle.OneTimerBoundedRearms | src/chat/ChatServer.cc:24-48 | timers re-armed never outnumber message callbacks |
| Idle.KickMeansIdle | src/chat/ChatServer.cc:32-37 | a kick comes from a timer, and no input came for the whole timeout before it |
| Idle.SilentIsKicked | src/chat/ChatServer.cc:32-41 | a client silent from one expiry to the next is kicked at the next |
| Idle.GoneStays | src/chat/ChatServer.cc:28-31 | a client that is gone, or was kicked, is neither kicked nor given a timer any more |
| Idle.IdleWatch.OnTimer | src/chat/ChatServer.cc:28-41 | the callback stops, asks for the kick, or renews, as the run model says |
| Idle.IdleWatch.OnMessage | src/chat/ChatServer.cc:54-56 | input refreshes the activity time and touches no timer |
| EndToEnd.RunChats | src/chat/RoomManager.cc:29-35 | in every run of the whole server what each thread has sent a connection is, in order, the first messages that the turns of that thread told it |
| EndToEnd.AcceptedLines | src/chat/ChatServer.cc:54-84 | in every run of the whole server every message a connection accepts is one line |
| EndToEnd.SameAccepted | src/net/TcpConnection.cc:77-98 | the bytes a connection took are the messages its loop accepted, one after the other, in every run of the whole server |
| EndToEnd.ClientSees | src/net/TcpConnection.cc:66-121 | received bytes, in any chunks, decode to the first accepted messages; those of one thread are, in order, the first that its turns told this client |
| Locks.ScriptFits | src/chat/RoomManager.cc:5-47 | every operation takes the room mutex with nothing held, a queue mutex with no queue mutex held, and keeps nothing |
| Locks.ScriptUses | src/chat/RoomManager.cc:5-47 | what each operation touches, and that a broadcast gives the room's mutex back only at its end |
| Locks.NoRace | src/chat/RoomManager.cc:5-47 | what a mutex guards is touched by its holder only, by one thread at a time, in every reachable state |
| Locks.HoldersProgress | src/net/EventLoop.cc:62-71 | whoever holds a mutex can go on, or waits for a queue mutex whose holder can |
| Locks.NoDeadlock | src/chat/RoomManager.cc:29-35 | with threads running any operations in any interleaving, while any has a lock call to make some thread can make its next one |

## Left out

- Bytes and text: a byte is a `char`, and the Chinese messages are sequences of characters, not UTF-8 bytes.
- Raw system calls, `Socket`, `InetAddress`, `Acceptor` and errno logging: only their possible answers are kept.
- `EventLoopThread`: the start and the join of threads. In `Reactor` an accepted connection may go to any loop; `Server.TcpServer` makes the choice.
- `std::function`, `shared_ptr`, `priority_queue`: tasks are values, references are counted by who holds them, the heap is a set with a minimum.
- `EventLoop` across threads: the multi-thread claims are on values; the class form has one loop, one turn at a time, because the outer loop need not end.
- The C++ memory model: atomics and mutexes are sequentially consistent.
- Liveness that needs a fair kernel or real time, and the poll timeout: a loop asleep on early work wakes only by an event.
- Connection.TcpConnection.Shutdown: is the call on the owner loop, as at every call in the repository; calls from other threads are in `Reactor` (the state) and in `Deferred` (the socket).
- Server tear-down, and clean-up of a connection that half-closed but never closed: clean-up only follows a close.
- The layers meet in stated relations: `Lifecycle.Lives` (a connection's chat steps are those of the callbacks of one life) and `EndToEnd.WholeStep` (a thread sends what its turns told, in their order, and the owner loop's acceptances are the sends of the life).
- ReactorTheorems.DestroyedOnce: the closing step of `Reactor` closes live connections only, the kernel's rule of `Links.Ruled`; without it `ReactorLimits.DestroyedTwice` is what happens, and `HandedOverOnceExactly` says exactly when.
- ReactorTheorems.RegistrationLegal: rests on the same rule.
- A connection callback or message callback is arbitrary code: any number of sends, half-closes and reads of the input buffer.
- Sessions are values in a map that is reassigned, so sharing of one `Session` object by pointer is not captured; the idle watch and the chat session each keep the activity time.
- Buffer addresses and `size_t` wrap-around: indices are unbounded naturals; connection numbers are unbounded too.
- The logger's `fopen` and `fwrite` failures, and the condition variable's clock: the back end may wake at any time.
- A second `stop` while the first is joining returns at once, as in the code; only the call that finds the logger running is promised a full file.
- Log lines longer than 64 KiB: excluded by a precondition, as the header demands.
- Times are integer nanoseconds: the rounding of `double` seconds in the idle timer and `runAfter` is not modelled.
- Timers due at the same instant run in any order; an empty heap may leave the timerfd set.
- `runInLoop` on the owner's thread is the call itself, so it has no member of its own.
- The HTTP demo, benchmarks, Docker files and Python tests.
- Loops.EventLoop.HandleEvents: channel callbacks are arbitrary code that may queue and quit; closing a connection there is in the transition system.
