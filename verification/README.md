# A verified model of the chat server, its clients and its I/O layer

A multi-threaded chat server keeps named rooms. A sending client logs in, joins rooms and
broadcasts lines; a receiving client logs in, joins one room and prints what is broadcast
there. This project models the server, both clients and the byte-stream layer under them,
and proves what they do over every interleaving of threads and every schedule of short and
interrupted system calls.

`dafny verify dfyconfig.toml` checks the whole project.

## The three parts

**Bytes and lines.** `Rio` is a socket descriptor whose `read()` and `write()` calls follow an
arbitrary plan of full, short, interrupted and failed transfers, with the unbuffered functions
on top. `RioReader` is the buffered reader; its abstract value is a single stream of bytes.
`Connection` is `send`, `receive` and the splitter; `Text` and `Protocol` say what a line means;
`Framing` proves what a sequence of sends and receives does together; `Receiver` does the same
for the printing client, and `Screen` says what it prints of the deliveries of a whole run of the
server. `Sio` is the number printing of the same C library.

**The server as a machine of threads.** `Machine` gives every worker thread a program counter,
the local variables of its chat loop, and steps no larger than what another thread can observe:
lock, work, unlock; in enqueue push and post are separate steps; a broadcast visits any member
not yet visited, because the order of a `std::set` of pointers is arbitrary. A `Run` is any
sequence of steps of any threads with the states it passes through. History variables record,
per room, the log of broadcasts, and per thread the requests received, the replies sent, the
messages handed to `send` and the length of the room's log at the join. `Invariant` (shape,
registry, lock ownership), `Semaphores`, `QueueContents`, `History`, `ExactDelivery`,
`DeliveryStep` and `Ordered` build up one inductive invariant; `Deadlock` draws on it;
`Theorems` states the results about whole runs. `LogContents` traces every broadcast back to the
line that brought its text. `Requests` says of each line of each client what it is answered and
what it changes, in terms of the states before and after it. `Progress`, `Completion` and
`Serving` show what a thread gets done when the others pause: a queue is emptied, a broadcast
ends, a line is answered. `Hello` strings this together to one conversation of two new clients.

**The objects and the protocol.** `ServerObjects` has the source's classes with the source's fields,
each method proved against what the protected data become. `Session` is the protocol
that a sender sees: an automaton that knows nothing of threads and room objects.
`QueueMachine` is a queue shared by any number of enqueuers and dequeuers.
`SoloBroadcast` connects the machine with the method `Room.BroadcastMessage`: both are stated with
`Protocol.Share`, what one broadcast adds to one member's queue. `Witnesses` holds concrete runs.
`Lockstep` and `Answers` compose the sending client with login and chat loop over the two byte
streams, while all other threads run, and `Keyboard` goes on from there to the receiving
client's screen.

## Conventions

- A byte is a Dafny `char`. A string of the program is a Dafny string; where C sees only the
  part in front of a NUL, the model says `CString`.
- Each worker thread creates one user, so thread and user carry the same number.
- A receive and the unlocked `member_exists` that may follow it form one step; the read of the
  member set is taken to be atomic. `CheckIsStable` proves that the answer does not go stale.
- The one-second wait of `dequeue` is a wait that may fail at any time, even though a
  message is there.
- The results of the server's `send` calls are ignored by the source and so by the machine:
  "delivered" means handed to `send`.
- A descriptor stays open for the lifetime of its thread, as in the source, where `close` never
  clears it (connection.cpp:47-52).
- Branches that cannot be taken are part of what is proved: the third result of `send`
  (connection.cpp:76-79) never occurs, and neither does the receiver thread's error
  branch (server.cpp:195-198).

## Where the program and its documentation differ

- message.h:8-12 allows an encoded message of 255 bytes including its newline. `receive` passes
  255 to `rio_readlineb`, which keeps one byte for the terminator, so the exact limit is 254:
  `Framing.FramingExact` is an equivalence, and `Framing.DocumentedLimitTooLong` gives a message of
  255 bytes that is not received as sent.
- A leave before any join dereferences a null pointer (server.cpp:149-150), which is undefined
  behaviour of the whole server. Such a step does not exist in the machine, so what is proved
  about runs speaks of the states before it. `Witnesses.LeaveBeforeJoin` gives a run that ends
  in front of one; `Theorems.LeaveSafeIffJoined` proves that just the leaves of senders that
  never asked for a room are excluded, and `Answers.NeverBothWait` that they are the only lines
  under way on which a client's thread has no step.
- `receive` reads an unset buffer at end of file, and indexes past its list of fields for a line
  that begins with a NUL and for a delivery with fewer than four fields
  (connection.cpp:88-105, connection.cpp:116-120). These are outside `Connection.Receive`'s precondition
  and are `Undefined` in `Protocol.Parse`; `Connection.ReceiveDefined` says which bytes they are, and
  `Protocol.UndefinedLines` gives two such lines.
- A sender that quits is not removed from its room (server.cpp:137-140): `Witnesses.QuitsAndStays`
  is such a run, and `Theorems.StaysAfterQuit` says exactly when it happens.
- A line with the tag "delivery" from a client is taken for a sendall whose text has colons
  (connection.cpp:101-103, server.cpp:158-163), and then the deliveries of that text are not
  well-formed: `Witnesses.IllFormedDelivery` is such a run, and `LogContents.EntryWellFormed` says
  that it happens with just these lines.
- A sender that leaves keeps its room pointer (server.cpp:149-153), which is modelled as it is.
- `send` measures the data of quit and leave although it sends "bye" (connection.cpp:58-65), so one
  with over-long data is turned down; `Framing.Taken` is that guard.

## Model

| member | source | states |
|---|---|---|
| Theorems.DeliveredExactly | server.cpp:186-202 | in every reachable state of any interleaving, what a joined receiver was sent, has in hand and has queued, plus at most the one message of the broadcast under way, is exactly its room's broadcasts since its join by senders of another name, in order; with the room lock free nothing is owed |
| Theorems.AllSent | server.cpp:191-202 | a receiver about to wait, with semaphore 0 and its room and queue unlocked, has been sent everything it is due; Progress.ReceiverDrains shows that it gets there |
| Progress.ReceiverDrains | server.cpp:191-202 | from every reachable state in which a joined receiver is about to wait, whatever its semaphore says, and its room and queue are unlocked, its own steps can send it everything it is due, and leave rooms and locks as they are |
| Progress.WaitSucceeds | message_queue.cpp:44 | the wait can succeed if and only if the semaphore is positive |
| Completion.ComesToRest | server.cpp:127-205 | from every reachable state in which nobody else holds a lock, a thread's own steps bring it back to its receive or its wait, or to its end: every broadcast, join and answer under way is finished |
| Serving.EveryLineServed | server.cpp:129-167 | from every reachable state with no lock taken, a line that a sender's thread can take is served: the run goes on to where the thread is ready again, with the answer and the effect that belong to the request, other threads and their memberships untouched |
| Serving.ServeLine | server.cpp:105-205 | the same for any thread and line, receivers included |
| Hello.Conversation | server.cpp:60-205 | from every reachable state with no lock taken, whatever was said before: a new sender can log in, join a room and speak, a new receiver of another name can log in and join it, all are answered "ok", and what the receiver is sent is that one text under that room and name |
| Hello.Hello | server.cpp:60-205 | the same from the start of the program with any plain names and text |
| Hello.EveHearsHi | room.cpp:45-53 | a run in which a receiver is sent "den:bob:hi" |
| Theorems.SentFollowsLog | room.cpp:40-57 | every message sent is the delivery of one log entry of the room; the entries are strictly increasing and none that is due is skipped |
| Theorems.DueAtExact | room.cpp:42-44 | the positions due to a receiver are all entries since its join by another name, each once, ascending |
| Theorems.TotalOrder | message_queue.cpp:19-27 | two receivers of one room see any two common broadcasts in the same order and with the same text |
| Theorems.SenderOrder | server.cpp:159-166 | what a receiver was sent from one sender of another name is a contiguous stretch of what that sender's own accepted requests broadcast in the room, beginning with the first one after the receiver's join: sending order, no gap, no duplicate |
| Theorems.DeadlockFree | guard.h:8-15 | whenever a thread is blocked on a lock, the holder can step or is itself blocked by one that can: no cycle of waiting threads |
| Deadlock.LockOrder | room.cpp:42-53 | a thread that waits for a lock while holding one holds a room lock and wants a queue lock; the server lock is held alone; no lock is held across a semaphore wait, a receive or a send |
| Requests.Guarded | guard.h:8-15 | in every run the registry changes only under the server's lock, a room only under its own and a queue only under its own, each held by the thread that takes the step |
| Theorems.NoThreadStuck | server.cpp:116-205 | a thread that is not stopped and not waiting for its client is stuck if and only if the lock it wants is taken, so no guard of a step (null room, empty deque, missing user) ever bites |
| QueueMachine.NeverStuck | message_queue.cpp:19-56 | a thread at a queue is stuck exactly when it wants the lock and the lock is taken; the wait can succeed exactly when the semaphore is positive |
| QueueMachine.Drains | message_queue.cpp:29-56 | in every reachable state with all threads between calls, any one of them can by itself dequeue everything that was ever enqueued and not yet taken |
| Theorems.SemaphoreAccounting | message_queue.cpp:44-52 | queue length is the semaphore plus a dequeuer past its wait plus an enqueuer before its post, and a successful wait implies a non-empty queue |
| QueueMachine.QueueAccounting | message_queue.cpp:19-56 | the same with any number of enqueuers and dequeuers; popped followed by queued is always exactly pushed; mutual exclusion; pop_front never meets an empty deque |
| QueueMachine.CountsAfter | message_queue.cpp:19-56 | a step changes the numbers of half-finished enqueues and dequeues only by what it does to the stepping thread |
| Theorems.MembershipRefined | server.cpp:127-172 | under any interference, between requests and after the last one, the replies of a sender thread are those of the automaton and its user is in exactly the room that the automaton says, stale room pointer or not; a stopped sender's last request was a quit or an unreadable line |
| Requests.AnsweredExactly | server.cpp:127-172 | for each request of each sender in each run, however the other threads interleave: the answer letter by letter (a leave and a sendall are "ok" exactly when the user is in some room's member set when the line is received, a join and a quit always, an unreadable line never); it ends in just the room asked for, in none after a leave, where it was otherwise; a sendall adds its text to the log of its room, nothing else adds anything of this user's to any log; and the thread stops after a quit or an unreadable line only |
| Requests.LoginExactly | server.cpp:60-73 | each thread of each run began with one line, and is a sender's if that was tagged "slogin", a receiver's if "rlogin", refused otherwise, with its first answer letter by letter and its user under the name on that line |
| Requests.ReceiverAnswered | server.cpp:176-190 | a receiver's thread takes exactly one line; after a join it is in just that room and answered "ok", after any other line it is in none, answered "err" and stopped, letter by letter |
| Theorems.StaysAfterQuit | server.cpp:137-140 | a sender that has stopped is still in some room if and only if it had not left the room it joined last |
| Witnesses.QuitsAndStays | server.cpp:137-140 | a run in which a sender quits and stays a member |
| Theorems.LeaveSafeIffJoined | server.cpp:149-153 | a waiting sender can take a received line if and only if the line parses to something defined and, for a leave, some join came before |
| Witnesses.LeaveBeforeJoin | server.cpp:149-150 | a run after which the line "leave:bye" is no step: it would dereference a null room |
| Theorems.SingleRoom | server.cpp:142-146 | no user is ever in two member sets, and a member's room is that of its own thread's pointer |
| Theorems.CheckIsStable | room.cpp:30-32 | the unlocked member_exists answer still holds when the room lock is taken, and all through the broadcast or up to the removal it led to |
| Theorems.OwnMembershipOnly | room.cpp:18-29 | no step of another thread changes whether a user is in a room |
| Theorems.QueuesWellFormed | room.cpp:45-53 | queued messages are always deliveries; as long as no client has sent the tag "delivery" each has exactly two colons and no newline |
| LogContents.EntryWellFormed | room.cpp:45-53 | on every run whose lines are read off a stream, the text of each broadcast was brought by a line of its sender, and its deliveries are well-formed if and only if that line is not tagged "delivery" |
| LogContents.DueWellFormed | server.cpp:191-194 | the same for each message a receiver is due, and so for all it is ever sent |
| LogContents.NamesPlain | connection.cpp:101-106 | on every run the names of users and rooms have no colon and no NUL |
| Witnesses.IllFormedDelivery | connection.cpp:101-103 | a run with a broadcast under way whose deliveries are not well-formed |
| Theorems.CleanExactly | connection.cpp:101-106 | the history flag used for that means precisely that no step so far brought a line tagged "delivery" |
| Theorems.ErrorBranchUnreachable | server.cpp:193-198 | a receiver that has joined never stops, never sends an error, and never dequeues anything but a delivery |
| Theorems.RegistryGrows | server.cpp:116-125 | over any run the registry only grows and never rebinds a name, rooms keep the name they were created under, logs only grow |
| Theorems.SameRoomIffSameName | server.cpp:145 | two threads point at the same room exactly when they last asked for the same name |
| Theorems.TextIndependentOfHistory | room.cpp:45-51 | although broadcasting overwrites the room's name, the text delivered is the same function of key, sender and message whatever happened before |
| Theorems.Reachable | server.cpp:105-222 | the conjunction of all invariants holds after every run |
| Theorems.Stretch | room.cpp:42-56 | the first n messages due, restricted to one sender of another name, are a contiguous stretch of that sender's entries beginning at the join |
| Invariant.StepFramed | server.cpp:116-205 | a step leaves other threads, the names of users and rooms, and everyone else's memberships and log entries alone |
| Invariant.LockedStep | guard.h:8-15 | at every step each lock is held by exactly the thread whose program counter is inside the section it protects |
| Invariant.RegisteredStep | server.cpp:116-125 | names and rooms stay paired one to one, and a room's current name normalises to its key |
| Semaphores.SemsStep | message_queue.cpp:19-56 | the accounting of every queue is kept by every step of every thread |
| History.HistoryStep | server.cpp:127-205 | at every program counter, requests, replies, room pointer and membership of every thread stay what the automaton prescribes |
| ExactDelivery.CastsRightStep | room.cpp:42-56 | a message on its way into a queue is for a member of another name and carries the room's key, the sender's name and the broadcast text, kept by every step |
| DeliveryStep.BeginExact | room.cpp:42-44 | when a broadcast starts it becomes due and owed to every joined receiver of another name |
| DeliveryStep.PushExact | message_queue.cpp:21-22 | the push discharges exactly the message that was owed |
| DeliveryStep.InsertExact | server.cpp:186-187 | at the join nothing is due and no broadcast is under way in the room |
| DeliveryStep.ExactStep | server.cpp:174-205 | exact delivery is kept by every step of every thread |
| Ordered.InOrderStep | server.cpp:158-166 | each sender's entries in each room's log are, in order, the texts the automaton accepts from its requests for that room, kept by every step |
| Session.AskedIffJoined | server.cpp:141-150 | the room pointer is set if and only if some join was among the requests |
| Session.SpotMeans | server.cpp:141-167 | the automaton is in a room if and only if the last join or leave so far was a join of it |
| Session.AskedMeans | server.cpp:141-148 | the name asked for is that of the last join |
| Session.AcceptedExactly | server.cpp:158-166 | the accepted texts are, in order and once each, those of the sendalls behind which the last join or leave was a join of the room |
| Session.ReplyExactly | server.cpp:132-167 | the automaton's answers, letter by letter |
| Session.ReadExactly | server.cpp:129-140 | the requests of a session that are read are those up to and including the first quit or unreadable line |
| Session.LeavesSafeExactly | server.cpp:149-150 | the precondition of the sender loop holds if and only if every leave comes after some join |
| SoloBroadcast.MachineMeetsMethod | room.cpp:40-57 | from any reachable state at the head of a broadcast with the members' queues free, the thread's own steps can finish the loop, and every way in which they do adds to each queue exactly the share that Room.BroadcastMessage adds |
| SoloBroadcast.EverySchedule | room.cpp:43-56 | from any point of the loop, every sequence of own steps up to its end serves exactly the members not yet visited |
| ServerObjects.MessageQueue.Enqueue | message_queue.cpp:19-27 | appends the message and keeps semaphore and length equal |
| ServerObjects.MessageQueue.Dequeue | message_queue.cpp:29-56 | returns the oldest message and removes it, or nothing exactly when the queue is empty or the wait was cut short |
| ServerObjects.Room.BroadcastMessage | room.cpp:40-57 | in whatever order members are visited, every member of another name gets exactly one delivery, others none, and the room's name still reads the same |
| ServerObjects.Server.FindOrCreateRoom | server.cpp:116-125 | an existing name returns its room unchanged, a new one a fresh empty room; names stay paired one to one with rooms |
| ServerObjects.Server.HandleJoin | server.cpp:141-148 | the user ends in exactly the room asked for, whatever room it was in, no other user joins or leaves any room, and the reply is "ok" |
| ServerObjects.Server.HandleLeave | server.cpp:149-157 | the user ends in no room, no other user joins or leaves one, the pointer stays, and the reply is "ok" if the user was a member when the request came and "err" otherwise, letter by letter |
| ServerObjects.Server.HandleSendall | server.cpp:158-167 | no membership changes; the text of a member reaches the queue of every member of another name once and no other queue, and a non-member changes no queue; the reply is "ok" for a member and "err" for others, letter by letter |
| ServerObjects.Server.KeptMeans | room.cpp:18-29 | the room-by-room invariant of the handlers amounts to: rooms under their own names, the user placed as stated, and nobody else moved since the census |
| ServerObjects.Server.ChatWithSender | server.cpp:127-172 | exactly the requests up to and including the first quit or unreadable line are answered; replies and membership are those of the automaton, no other user's membership changes, and every queue grows as QueueAfterExactly says |
| ServerObjects.QueueAfterExactly | server.cpp:158-166 | what a session adds to the queue of another user: in order, exactly one delivery for each sendall sent while the last join or leave was a join of a room that user is in, if the names differ, with that room, the sender's name and that text; and nothing else |
| ServerObjects.Server.DeliverQueued | server.cpp:191-202 | the queued messages are sent in order, one for each wait that is not cut short, up to the first error message, which is dequeued and not sent |
| ServerObjects.Server.ChatWithReceiver | server.cpp:174-205 | a first line other than a join is refused and changes nothing; a join puts the user, and nobody else, into exactly that room, and then what was queued is what was sent followed by what is still queued |
| Lockstep.FindFirst | sender.cpp:62-65 | the first occurrence of a pattern, or none anywhere |
| Lockstep.CommandChoice | sender.cpp:62-146 | which of the four requests a typed line becomes: join before leave before quit wherever they stand, and a line is broadcast as typed exactly when it mentions none of them |
| Lockstep.RequestBytes | connection.cpp:64-69 | the bytes a client writes at its login and for each kind of command |
| Lockstep.LockstepHolds | sender.cpp:32-156 | every client at every moment has 0 or 1 request unanswered, no client fails, every answer is one reply of its thread, and client and thread stop together after quit |
| Lockstep.PlayInStep | server.cpp:60-73 | the invariant behind it, for clients, login, chat loop and all other threads in any interleaving |
| Answers.AnswersExact | sender.cpp:55-156 | the lines a client has heard are exactly the login answer and, for each typed command in turn, the automaton's answer, whatever the other clients do |
| Answers.RequestExactly | connection.cpp:96-106 | which request a message sent becomes at the server: by its tag, with the data up to its first colon |
| Answers.TextIsCut | connection.cpp:105 | a typed text with a colon is broadcast as the part in front of the first one, without newline |
| Answers.NeverBothWait | sender.cpp:68-78 | while a client waits, it can hear an answer, or its thread is at work and stuck only on a taken lock, or the line under way is one its thread can take exactly when the client has not sent a leave before any join |
| Answers.PlainRequests | sender.cpp:66-70 | a plain room name or text reaches the server as that request, with the newline still in it |
| Framing.Exchange | connection.cpp:54-109 | for every schedule of short and interrupted writes and reads, receiving returns exactly the messages sent, in order, with the newline in the data and "bye" for quit and leave |
| Framing.FramingExact | connection.cpp:84-109 | for every list of clean messages, receiving until end of file returns exactly those messages if and only if every encoding takes at most 254 bytes |
| Framing.SentExact | connection.cpp:58-61 | over the guard of send: receiving until end of file returns exactly the messages passed to send if and only if each is accepted by it and fits |
| Framing.OneLineIffFits | connection.cpp:88-89 | what one send puts on the wire is one line to the other side if and only if it takes at most 254 bytes |
| Framing.SendThenReceive | connection.cpp:88-105 | the same for one message in front of any further bytes |
| Framing.DocumentedLimitTooLong | message.h:8-12 | a message of the documented maximal length is not received as sent |
| Framing.ParseClean | connection.cpp:96-106 | the fields of a clean message, a delivery's three included, are recovered from its encoding |
| Framing.WireExactly | connection.cpp:68 | tag, colon, data and newline are what is written for every message but a quit and a leave |
| Protocol.ParseTagged | connection.cpp:96-106 | any line with something behind its first colon, not tagged "delivery", is received as its tag and what stands between the first colon and the next |
| Protocol.ParseBare | connection.cpp:97-100 | a line with nothing behind its tag is turned down |
| Protocol.ParseThree | connection.cpp:101-103 | of a delivery the first three fields are kept, rejoined, whatever follows them |
| Protocol.RequestByTag | server.cpp:132-158 | which request a received line is, by its tag; a line turned down is an unreadable one |
| Framing.TagArrives | connection.cpp:112-122 | a one-line message that fits arrives with its tag, however many colons its data has |
| Connection.Connection.Send | connection.cpp:54-82 | the result code and the bytes handed to the descriptor: all of the encoding, none for over-long data, a proper prefix exactly when the last write made really failed |
| Connection.Connection.Receive | connection.cpp:84-109 | takes exactly one line off the stream, leaves the rest, and returns and records what that line parses to; fails with an I/O error exactly when the last read made really failed, and then only bytes of that one line are gone |
| Connection.ReceiveDefined | connection.cpp:88-105 | the bytes on which receive is not defined: none at all, a line that begins with a NUL, and a delivery with fewer than four fields; defined on all others |
| Protocol.UndefinedExactly | connection.cpp:101-120 | the same for one line |
| Protocol.UndefinedLines | connection.cpp:101-120 | two such lines |
| Connection.DivideData | connection.cpp:112-122 | the getline splitter computes the colon-separated fields, and the tag is the first |
| Text.SplitThenJoin | connection.cpp:112-122 | rejoining the fields restores any string but for one final colon |
| Text.JoinThenSplit | connection.cpp:112-122 | splitting recovers any colon-free fields with a non-empty last one |
| Protocol.ParsedDataColonFree | connection.cpp:101-106 | the data of a received message other than a delivery has no colon |
| Protocol.DeliveryWellFormed | room.cpp:45-53 | a delivery has exactly two colons on one line if and only if room, user and text have no colon in front of their first newline |
| Protocol.ColonIffDelivery | connection.cpp:101-106 | on every line that is received, the tag is "delivery" if and only if the data has a colon in front of its newline |
| Framing.DeliveryOfLine | connection.cpp:101-106 | for colon-free room and user, a broadcast of the data of any line read off a stream is well-formed if and only if the line's tag is not "delivery" |
| Text.RemoveNewlineTwice | room.cpp:33-39 | normalising a name twice is normalising it once |
| Receiver.SplitDelivery | receiver.cpp:94-111 | the client's index loop returns the same fields as the getline splitter on every string |
| Receiver.PrintedExactly | receiver.cpp:92-115 | a delivery of three plain fields is printed as "user: text" and a newline if and only if the fields take at most 242 bytes together |
| Receiver.TypedIsPrinted | room.cpp:45-52 | end to end, from join, login and sendall requests to the printed line, with the same exact bound |
| Screen.PrintedOverRun | receiver.cpp:90-117 | on every run, what the client prints of the bytes its thread sends is, in order, one line "user: text" for each broadcast behind the messages it was handed, if and only if every one of them fits one line and is well-formed |
| Screen.PrintedLines | receiver.cpp:92-115 | whatever is sent, the number of lines on the screen is the number of deliveries that fit and are well-formed |
| Keyboard.KeyboardToScreen | sender.cpp:55-156 | on every play of clients and server: the screen of a receiving client is as above, and its lines from any one sending client are a contiguous stretch, beginning with the first after the join, of the texts typed there and accepted for the room, under the name given at the login |
| Keyboard.PlayHasRun | server.cpp:60-73 | the server's state in any play is that of a run, so all results about runs hold there |
| Keyboard.PlainShown | room.cpp:45-52 | a plain text typed under a plain name is shown as "user: text" |
| Rio.WriteN | csapp.c:781-798 | everything is written in order however short or interrupted the writes; -1 exactly when the last write made really failed, after a proper prefix |
| Rio.ReadN | csapp.c:755-774 | the next bytes of the descriptor, fewer than asked for only at end of file; -1 exactly when the last read made really failed, with some prefix taken and stored |
| RioReader.Reader.constructor | csapp.c:843-848 | a new reader's stream is what the descriptor has yet to deliver |
| RioReader.Reader.Read | csapp.c:811-836 | takes the next bytes off the stream; none only at end of file; after a failure the stream is untouched |
| RioReader.Reader.ReadN | csapp.c:855-870 | min(n, what remains) bytes of the stream, stored at the front of the caller's buffer and nowhere else |
| RioReader.Reader.ReadLine | csapp.c:877-900 | stores exactly one line and a terminator within maxlen bytes, consumes just that line and returns its length; at end of file stores nothing; after a failed read only bytes in front of the line's newline are gone |
| RioReader.Reader.NextLine | csapp.c:882-899 | the counter n of the source is one more than the number of bytes stored on each exit of the loop, newline, end of file and limit, so that n - 1 is the count returned |
| RioReader.LineLengthExact | csapp.c:882-898 | the length is the unique one with no newline inside and a reason to stop behind: newline, limit or end of file |
| Sio.Reverse | csapp.c:232-241 | in place, the string in front of the terminator is reversed and the rest of the buffer untouched |
| Sio.ReversedTwice | csapp.c:232-241 | reversal is its own inverse |
| Sio.PutDigits | csapp.c:252-254 | the digit loop writes the digits backwards and nothing else |
| Sio.DigitExactly | csapp.c:253 | the 36 digits are 0 to 9 and then a to z |
| Sio.Ltoa | csapp.c:244-261 | the buffer holds the NUL-terminated numeral and is otherwise untouched |
| Sio.ReadNumeralBack | csapp.c:244-261 | reading the numeral gives the number back in every base from 2 to 36, and it is never "-0" |
| Sio.DigitsCanonical | csapp.c:252-254 | only digits of the base, no leading zero |
| Sio.DigitsOfValue | csapp.c:252-254 | conversely every canonical digit string is the numeral of its value, so numerals are unique |
| Sio.NumeralLength | csapp.c:244-261 | 65 bytes suffice for every 64-bit number above the minimum, sign and terminator included |

## Left out

- Socket set-up, accept, thread creation and detaching, descriptor closing: operating-system plumbing; threads appear with their login line.
- Connections that fail or end while the server runs: `Machine.Receive` takes only whole lines with a defined parse; `Connection.Receive` covers read errors, and a broken connection would add a stop without a request.
- Connection.Connection.Receive: requires a non-empty stream and a line whose parse is defined, because the source reads an unset buffer or indexes past its fields otherwise.
- Lockstep.LockstepHolds: assumes requests of at most 254 bytes without newline or NUL and no I/O failure. A longer request is more than one line to the server (Framing.OneLineIffFits), so it breaks the lockstep in the source too. It does not say that a response comes; Answers.NeverBothWait says what stands between a waiting client and its response, and Serving.EveryLineServed that the thread can give it.
- Keyboard.KeyboardToScreen: the receiving client is the function of its byte stream that its loop computes; its login exchange (receiver.cpp:33-72) and the interleaving of its reads are not events of the play. Where the client itself indexes past its fields, on the rest of a delivery that was cut, the function prints nothing.
- Sio.Ltoa: excludes the smallest long, whose negation overflows in C.
- ServerObjects: one thread at a time; locks and `handleClientLogin` appear only in the machine. HandleRequest, HandleJoin, HandleLeave and HandleSendall are one turn and the branches of the loop of `chat_with_sender` as methods of their own; the endless loop of `chat_with_receiver` runs for a given list of waits.
- RioReader.Reader.Read: returns the bytes that the source copies with memcpy; its two callers store them.
- Text.RemoveNewline: is a function on values, while the source erases in its argument; the overwriting of the room's name is modelled.
- Liveness under a fair scheduler: what a thread gets done is shown for when the others pause (Completion.ComesToRest, Progress.ReceiverDrains, Serving.EveryLineServed). A thread that waits for a lock while others go on is shown never to be deadlocked, not to be served in the end; and since the wait for a message may time out at any moment, that it succeeds in the end is not claimed either.
- Memory: users, rooms and messages are never freed, as in the source; the copying of message objects is not modelled.
- The data race of the unlocked `member_exists` in the C++ memory model: taken as an atomic read.
- Clock arithmetic of `dequeue`, console I/O, argument parsing, exit codes and the login exchange of `receiver.cpp` with its error messages.
- `sev.cpp` (a server variant that is not built), `client_util.cpp`, the shell tests and the rest of `csapp.c` (wrappers around system calls).
