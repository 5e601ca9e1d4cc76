# A verified model of a publish/subscribe broker

The system is a broker, its clients and a stats manager. Clients send text commands over TCP to publish
a message on a topic, to subscribe to a topic and to ask about topics. The broker's main thread executes
them. Published messages go into one linked queue per topic; one producer thread per topic moves them
into a bounded circular buffer that all threads share; a consumer thread takes them out and sends each to
the subscribers of its topic. Answers to commands go through the same buffer. The broker tells the stats
manager of every successful command; the stats manager counts them and adds its counters to a file.

The project models this in layers.

**The threads** (`Program`, `Machine`, `Discipline`, `Locking`, `Knowledge`, `Flow`, `Wakeups`, `Shutdown`,
`Closing`, `Deadlock`, `Drain`, `Pipeline`, `Progress`, `Transmission`, `Handshake`, `EmptyGet`). `Program` holds the code of all
threads as data: every point at which a thread can be preempted, and what it does there (enter or leave a
critical section, one test, one access to shared data, sleep, wake). `Machine` runs any interleaving of
them, with spurious wakeups, for any number of topics and any positive buffer capacity (3 and 100 in the
source), and with any subset of the threads failing to start. The invariants are each proved to be kept
by every step, and `Pipeline` states the main results for every reachable state: in-order conservation,
no lost wakeup, complete delivery at rest, no cycle of waiting threads. `Progress` proves that the threads get
to that rest: before shutdown everything published is delivered by their own steps. `Transmission` counts the
sends behind each delivery. `Closing` and `Handshake` follow the
shutdown handshake to its end, and `EmptyGet` is a run that shows where the code departs from its intent.

**The heap structures** (`Ring`, `MessageQueue`, `SocketList`). The circular array, the linked queue with
its stale tail, and the socket list are classes over arrays and pointers, each proved against a sequence.
`Machine` uses the same assignments of `put` and `get` as the class in `Ring`; `Topics` keeps the queues and
lists of all topics, and the commands below run on them.

**Walks over the socket list** (`Folds`, `Inputs`, `ReceiveLoop`, `Walk`, `Deliveries`, `Fanout`). A pass of the receive loop
executes the commands of each connection, and deletes the node it is at when the client has closed; `Inputs`
says as a list of events what the connections bring, and what the answers to it are. The
consumer's walk over the subscribers leaves the list's critical section for each send; `Walk` says what any
additions and removals in between do to it, `Deliveries` what one subscriber gets over many messages, and
`Fanout` proves that the code with its pointers does what `Walk` says.

**Commands** (`CStrings`, `Commands`, `CommandExecution`, `RoundTrip`, `Batch`, `Subscriptions`,
`Decimal`). The client's encoder and the broker's decoders over character buffers, executing a whole
receive buffer of commands on the linked queues and lists, and what holds of the subscriber lists over
every run.

**Statistics** (`Tokens`, `StatsFile`, `Notifications`, `StatsUpdate`, `Accounting`). Printing into a
buffer of fixed size, parsing with an in-place `strtok`, counting received batches, updating the file, and
the account of the whole system from commands to file.

Where the code and its evident intent differ, the code is modelled and the exact condition is proved:

- `consume` calls `get` after a shutdown wakeup even on an empty buffer. The count then becomes -1, and what
  the unused slot held is sent. The count leaves its bounds exactly when that has happened
  (`Pipeline.CountBounds`), which needs the flag and an empty buffer (`Pipeline.GetBreaksBounds`). So what is
  sent is genuine messages and at most one element more (`Pipeline.SentIsPrefix`), which over every run is
  there exactly when a `get` started on an empty buffer (`Pipeline.ExtraIffEmptyGet`). Once main has done its
  wakes it is settled whether that happens: exactly when it has happened already, or the buffer is empty and
  the consumer on its way to a `get` (`Handshake.ShutdownSendsExtra`). It can happen with any capacity and any
  number of topics, when a producer was not started: an element that nobody published is sent
  (`EmptyGet.NothingIsSent`).
- The subscriber walk keeps a node pointer outside the list's critical section. It goes wrong exactly
  when a call frees the node under the walker (`Walk.SoundUnlessHit`).
- The size guard of a subscriber list is `<=`, so a list can hold one more than the maximum
  (`Subscriptions.SizeBounded`, `Subscriptions.SizeReached`, on the linked lists `Subscriptions.RunEvents`
  and `Subscriptions.SubscribeTimes`), and that one size does not fit the reply
  (`Subscriptions.NumberReadsBack`).
- `subscribe` allows duplicates and a disconnect removes one occurrence per topic
  (`ReceiveLoop.RidOfDisconnected`).
- A published message comes through exactly when its topic's name has no '#' (`RoundTrip.PublishRoundTrip`).
- A receive buffer that the commands fill to the last byte is read past its end (`Batch.BatchRecovered`).
- Counters are printed unsigned and parsed signed (`StatsFile.RoundTripExact`).
- The notification loop counts the first notification of a batch once for each one in it. That is right
  exactly when all are about the same counter (`Notifications.AttributionExact`); the total is right in any
  case (`Accounting.SystemAccounts`).
- When the file can be read but not written, the counters in memory are reset all the same
  (`Accounting.FailedWriteLoses`).
- Shutdown is called only when a thread failed to start. Then main waits for ever
  (`Pipeline.UnstartedNeverFreed`). If all threads were started and the consumer does not read an empty
  buffer, the handshake ends (`Handshake.HandshakeEnds`). The thread model lets main shut down at any time.

The comments in the source call `SUBSCRIBER_LIST_MAX_SIZE` the maximum size and allocate five digits for
it; the guard allows one more, and the model follows the guard.

## Model

| member | source | states |
|---|---|---|
| Pipeline.InOrderDelivery | PubSub/Broker/outgoing_buffer.cpp:36-131 | before shutdown, for each topic and for the responses: published = sent, then in the consumer's hand, in the ring, in the producer's hand, in the queue, in this order |
| Pipeline.SentIsPrefix | PubSub/Broker/outgoing_buffer.cpp:36-131 | at any time what was sent is genuine messages, a prefix of what was published on each stream, and at most one element more, sent after a `get` on an empty ring; in between are exactly hand, ring and hand, and a stream loses at most the one message its producer gave up |
| Pipeline.ExtraIffEmptyGet | PubSub/Broker/outgoing_buffer.cpp:112-120 | over every run the extra element has been sent if and only if a `get` of the consumer started with count 0 and the consumer has sent what it read |
| Pipeline.PutHasRoom | PubSub/Broker/outgoing_buffer.cpp:36-48 | `put` never runs on a full ring or with a null message, whenever the flag is raised; what was sent is real messages, but for the element after a `get` on an empty ring |
| Pipeline.CountBounds | PubSub/Broker/outgoing_buffer.cpp:109-124 | the count is within its bounds if and only if the last `get` did not read an empty ring; otherwise it is -1 |
| Pipeline.GetBreaksBounds | PubSub/Broker/outgoing_buffer.cpp:112-116 | a `get` keeps the ring coherent and its count within bounds if and only if it starts on a nonempty one; otherwise the flag is set |
| EmptyGet.CountCanDropBelowZero | PubSub/Broker/outgoing_buffer.cpp:112-116 | for every capacity and number of topics, with a producer that was not started, a reachable state has count -1 |
| EmptyGet.NothingIsSent | PubSub/Broker/outgoing_buffer.cpp:116-120 | in such a configuration a reachable state has nothing published and a null message sent |
| Pipeline.NoLostRingWakeup | PubSub/Broker/outgoing_buffer.cpp:36-52 | if a producer sleeps unwoken, elements plus woken threads fill the ring; if the consumer does, the ring is empty |
| Pipeline.QuiescenceDelivers | PubSub/Broker/outgoing_buffer.cpp:60-131 | when all sleep before shutdown, ring, queues and hands are empty and everything published was sent |
| Pipeline.EndsOnlyAfterFlag | PubSub/Broker/outgoing_buffer.cpp:60-76 | before the flag is set no started thread has ended or is on its way to its end, and none is in a last send |
| Pipeline.RestDelivers | PubSub/Broker/outgoing_buffer.cpp:60-131 | with all threads started, when before shutdown no thread can step by itself and main may at most start on a new event, main waits for events, ring, queues and hands are empty and everything published was sent |
| Progress.OwnStep | PubSub/Broker/outgoing_buffer.cpp:36-131 | before shutdown every step that a thread takes by itself lowers one well-founded measure of all threads, so no sequence of such steps goes on for ever |
| Progress.EverythingDelivered | PubSub/Broker/outgoing_buffer.cpp:60-131 | from any such state, whatever the threads are doing, steps lead to rest, where everything published, with what main was about to publish, was sent in order |
| Progress.InitIsCalm | PubSub/Broker/broker.cpp:69-92 | so from the start, when all threads were created |
| Progress.PublishedIsDelivered | PubSub/Broker/message_queue.cpp:16-61 | a message main enqueues on a topic is sent after those published before it, and nothing is added to the other streams |
| Progress.AnswerIsDelivered | PubSub/Broker/broker.cpp:93-103 | and so is an answer to a connection |
| Progress.ShutdownStarts | PubSub/Broker/mad.cpp:4-8 | from any such state in which main waits for events a shutdown can begin |
| Transmission.DeliveredAfterSends | PubSub/Broker/outgoing_buffer.cpp:78-104 | over every run, when the consumer has done with an element it has, since the `get`, called send once for an answer, and for a message of a topic once for each node its walk over that topic's list came to |
| Transmission.SentOnlyWhenDelivered | PubSub/Broker/outgoing_buffer.cpp:112-131 | nothing is counted as sent but the element in the consumer's hand at that point |
| Pipeline.NoWaitCycle | PubSub/Broker/message_queue.cpp:82-115 | mutual exclusion, and no cycle of threads waiting for each other's critical sections, in every reachable state |
| Pipeline.NotStuck | PubSub/Broker/outgoing_buffer.cpp:36-135 | a thread that is neither asleep nor ended can step, or a thread in a critical section can |
| Pipeline.NoSleeperMissed | PubSub/Broker/mad.cpp:4-18 | after main's wakes no producer and not the consumer sleeps or is about to |
| Pipeline.EveryStepDrains | PubSub/Broker/mad.cpp:9-24 | from then on, as long as no `get` has read an empty ring, each step of such a thread brings it closer to its end by a well-founded measure |
| Pipeline.HandshakeAdvances | PubSub/Broker/mad.cpp:20-26 | with all threads started, and as long as no `get` has read an empty ring, some thread can step until main has passed its wait |
| Handshake.EndingStep | PubSub/Broker/mad.cpp:9-26 | from a clean state every step a thread takes by itself leads to a clean state with less left to do, by a well-founded measure of all threads |
| Handshake.HandshakeEnds | PubSub/Broker/mad.cpp:9-26 | with all threads started, from a clean state after the wakes steps lead, through clean states, to where main has passed its wait |
| Handshake.ShutdownSendsExtra | PubSub/Broker/outgoing_buffer.cpp:109-124 | in every run in which main passes its wait, an element nobody published was sent if and only if the state after the wakes was not clean |
| Closing.StepKeepsClean | PubSub/Broker/outgoing_buffer.cpp:39-46 | after main's wakes every step keeps a state clean, and an unclean one unclean |
| Pipeline.FreedAfterUse | PubSub/Broker/mad.cpp:20-59 | when main goes on to free resources every other thread has ended and no critical section is held |
| Pipeline.UnstartedNeverFreed | PubSub/Broker/broker.cpp:45-48 | if a thread failed to start, no run passes main's wait |
| Pipeline.RunInv | PubSub/Broker/outgoing_buffer.cpp:36-135 | the whole invariant holds in every state of every run |
| Discipline.AllDisciplined | PubSub/Broker/outgoing_buffer.cpp:36-135 | at every point all paths agree on the critical sections held, data is touched under its lock, and a sleep releases the only one held |
| Discipline.EntersInOrder | PubSub/Broker/message_queue.cpp:82-115 | critical sections are entered in increasing rank, but for one the thread is already in |
| Locking.StepExcludes | PubSub/Broker/global.cpp:17-36 | every step keeps mutual exclusion |
| Knowledge.StepSafe | PubSub/Broker/outgoing_buffer.cpp:36-69 | every step keeps the coherence of the ring, what each thread knows of shared data at its point, and what it carries |
| Flow.StepFlows | PubSub/Broker/outgoing_buffer.cpp:36-69 | every step keeps the order and conservation of every stream, and that what was sent is genuine but for the one element after a `get` on an empty ring |
| Wakeups.StepNoLostWakeup | PubSub/Broker/outgoing_buffer.cpp:39-51 | every step keeps the accounts that rule out a lost wakeup on the ring and on each queue |
| Shutdown.StepNoneMissed | PubSub/Broker/mad.cpp:9-18 | every step keeps that nobody main has passed sleeps unwoken |
| Shutdown.StepSignals | PubSub/Broker/global.cpp:29-36 | every step keeps that the counter counts the ended threads and that main is not left asleep on a complete one |
| Shutdown.StepAllDone | PubSub/Broker/mad.cpp:20-25 | main passes its wait only when every other thread has ended |
| Deadlock.NoCycle | PubSub/Broker/message_queue.cpp:16-40 | threads that wait for each other do so in increasing rank, so in no cycle |
| Drain.WorkerStepsCloser | PubSub/Broker/outgoing_buffer.cpp:60-133 | with the flag set and the wakes done, and no `get` on an empty ring so far, each step of a thread lowers its distance to the end |
| Ring.PutAppends | PubSub/Broker/outgoing_buffer.cpp:18-23 | `put` on a ring that is not full appends to the slots in use, wrapping round |
| Ring.GetRemoves | PubSub/Broker/outgoing_buffer.cpp:26-32 | `get` on a ring that is not empty removes the oldest element |
| Ring.CoherentModulo | PubSub/Broker/outgoing_buffer.cpp:19-29 | the indices agree if and only if fill index = (use index + count) mod capacity |
| Ring.RunRefinesQueue | PubSub/Broker/outgoing_buffer.cpp:3-32 | over every guarded run the ring is a bounded FIFO queue: same elements read, same elements left |
| Ring.RunConserves | PubSub/Broker/outgoing_buffer.cpp:3-32 | elements read, then left, are those at the start, then those put |
| Ring.OutgoingBuffer.constructor | PubSub/Broker/outgoing_buffer.cpp:3-6 | the buffer starts coherent and empty |
| Ring.OutgoingBuffer.Put | PubSub/Broker/outgoing_buffer.cpp:18-23 | the array and fields after `put`, and the contents grown by one |
| Ring.OutgoingBuffer.Get | PubSub/Broker/outgoing_buffer.cpp:26-32 | the element read, the fields after `get`, and the contents shrunk by one |
| MessageQueue.Queue.constructor | PubSub/Broker/message_queue.cpp:4-6 | the queue starts empty |
| MessageQueue.Queue.EnqueueUnsafe | PubSub/Broker/message_queue.cpp:43-61 | appends one node, at the tail or as the only one when the tail is stale; the other nodes stay |
| MessageQueue.Queue.DequeueUnsafe | PubSub/Broker/message_queue.cpp:64-79 | removes the first message or yields null; emptying the queue leaves the tail on a node no longer in it |
| MessageQueue.RunOps | PubSub/Broker/message_queue.cpp:43-79 | over every run of operations on the linked queue, dequeues yield exactly what a mathematical queue yields, null when it is empty, and the contents are first in, first out |
| MessageQueue.ReplayIsFifo | PubSub/Broker/message_queue.cpp:43-79 | messages handed out, then left, are those at the start, then those added |
| SocketList.List.AddToStart | PubSub/Broker/socket_list.cpp:32-54 | a fresh node in front, the old chain behind it, the size one more |
| SocketList.List.FreeNode | PubSub/Broker/socket_list.cpp:56-94 | removes the first node with the pointer, if there is one, and says so; size and chain agree |
| SocketList.List.NodesDiffer | PubSub/Broker/socket_list.cpp:32-94 | the chain of a well formed list ends, so no node is in it twice |
| Topics.LeaveTopics | PubSub/Broker/networking_broker.cpp:207-209 | each topic's linked list loses the first occurrence of the pointer |
| Sequences.RemoveFirstCounts | PubSub/Broker/socket_list.cpp:66-90 | one occurrence of the pointer is removed and nothing else |
| ReceiveLoop.AcceptConnection | PubSub/Broker/networking_broker.cpp:128-163 | a newly allocated pointer is added when the list has at most 99999 and neither `accept` nor `ioctlsocket` fails, so no connection is in the list twice |
| ReceiveLoop.Disconnect | PubSub/Broker/networking_broker.cpp:197-211 | marks the socket invalid, moves the walker on, removes the connection and one occurrence from each topic |
| ReceiveLoop.ReceivePass | PubSub/Broker/broker.cpp:111-137 | one pass visits each connection once, in order, unless an overrun ends the process: it executes its commands, or deletes it under the walker with one occurrence per topic. The state of all topics is the left-to-right run of what the connections bring (each one's commands in order, or its end), with one answer to its connection for each command (silence where it has none), all of it unless the last answer overruns; the survivors in order, the handles and the buffer afterwards |
| Inputs.PassHappens | PubSub/Broker/broker.cpp:111-137 | visiting the connections one by one is a run of the events they bring, all of them or up to an overrun, with one answer for each command |
| Inputs.PassEnding | PubSub/Broker/command_execution.cpp:105-122 | no answer of a pass but the last overruns, and the last does if and only if that ends the process |
| ReceiveLoop.PassCounts | PubSub/Broker/networking_broker.cpp:205-209 | over a pass a topic loses one occurrence of each disconnected pointer it holds, whatever the commands of the other connections |
| ReceiveLoop.RidOfDisconnected | PubSub/Broker/networking_broker.cpp:206-209 | a topic is rid of a disconnected pointer if and only if it held it at most once |
| Walk.StepOnCourse | PubSub/Broker/outgoing_buffer.cpp:88-97 | one addition, removal or advance keeps: read so far, then ahead, is the initial list without the skipped |
| Walk.SoundUnlessHit | PubSub/Broker/outgoing_buffer.cpp:92-96 | the walk reads no freed node and its node stays listed if and only if no event frees the node under the walker |
| Walk.WalkSendsOnce | PubSub/Broker/outgoing_buffer.cpp:83-99 | a finished walk sent once, in list order, to every node there from start to end, and to none added later |
| Deliveries.PresentGetsAll | PubSub/Broker/outgoing_buffer.cpp:83-130 | a node on the list from the first walk to the last is sent every message exactly once and in order, whatever else is added and removed |
| Fanout.SendToSubscribers | PubSub/Broker/outgoing_buffer.cpp:83-99 | following the pointers, under any calls between the sends, sends to exactly the sockets of that walk and leaves a well formed list |
| Commands.CreatePublishCommand | PubSub/Client/command_creation.cpp:13-31 | fills exactly the allocated bytes with the encoding |
| Commands.CreateNonpublishCommand | PubSub/Client/command_creation.cpp:34-47 | fills exactly the allocated bytes with the encoding |
| Commands.CreateCommand | PubSub/Client/command_creation.cpp:49-65 | the encoding of the request, for every command and with or without a message |
| CommandExecution.ExtractForPublish | PubSub/Broker/command_execution.cpp:124-141 | two buffers of exactly the right size with the topic and the '#' and message |
| CommandExecution.ExtractTopicName | PubSub/Broker/command_execution.cpp:143-150 | a buffer of exactly the right size with the topic |
| CommandExecution.Broker.GetTopicByName | PubSub/Broker/command_execution.cpp:11-19 | the first topic with the name, or none |
| CommandExecution.Broker.Publish | PubSub/Broker/command_execution.cpp:22-32 | succeeds if and only if the topic exists, and then its linked queue, and only it, has the message at its end |
| CommandExecution.Broker.Subscribe | PubSub/Broker/command_execution.cpp:35-60 | succeeds if and only if the topic exists and the guard on the cached size holds, and then the pointer is in front of its linked list |
| CommandExecution.Broker.Unsubscribe | PubSub/Broker/command_execution.cpp:63-86 | succeeds if and only if the topic exists and lists the pointer, and then its first occurrence is unlinked |
| CommandExecution.Broker.TopicExists | PubSub/Broker/command_execution.cpp:89-102 | the answer "1" or "0" |
| CommandExecution.Broker.SubscriberNumber | PubSub/Broker/command_execution.cpp:105-122 | the cached size as a numeral, "#" for no topic, or the overrun of the reply buffer |
| CommandExecution.Broker.NotifyStatsManager | PubSub/Broker/command_execution.cpp:152-168 | one more notice: the command with its '#', cut before the message |
| CommandExecution.Broker.ExecuteCommand | PubSub/Broker/command_execution.cpp:171-213 | the whole new state of the linked queues and lists and the answer for every kind of command, and a notice if and only if it succeeded; all of them stay well formed |
| RoundTrip.PublishRoundTrip | PubSub/Client/command_creation.cpp:13-31 | topic and message come out of the decoder as they went into the encoder if and only if the topic has no '#' |
| RoundTrip.OtherRoundTrip | PubSub/Client/command_creation.cpp:34-47 | the other commands carry any topic through, and their notice is the command itself |
| RoundTrip.ExecuteServes | PubSub/Broker/command_execution.cpp:171-213 | executing an encoded request does and answers what the request asks for |
| Batch.BatchRecovered | PubSub/Broker/broker.cpp:114-131 | the loop recovers exactly the list of commands if and only if they do not fill the zeroed buffer |
| Batch.ExecuteBatch | PubSub/Broker/broker.cpp:114-131 | each command is executed on the linked queues and lists in the state its predecessors leave and has its answer; no answer before the last overruns, and without an overrun all commands are executed and the buffer is zeroed |
| Batch.BatchServes | PubSub/Broker/broker.cpp:114-131 | for requests encoded one after the other, each is served and answered in the state its predecessors leave, and all are unless the last answer overruns |
| Batch.HundredFit | PubSub/Common/common.h:5-10 | a hundred requests as the client can type them take fewer than the buffer's 4600 bytes, so they are served one after the other, all of them unless an answer overruns |
| Batch.ReceiveAndExecute | PubSub/Broker/broker.cpp:113-131 | each request is served and answered in the state its predecessors leave, up to the first overrun; without one there are as many answers as requests and the buffer is ready for the next batch |
| Subscriptions.RunEvents | PubSub/Broker/command_execution.cpp:35-86 | over every run on the linked lists of a broker, each cached size is the length of its list and at most the maximum plus one, and each pointer is listed as often as its adds exceed its removals |
| Subscriptions.SubscribeTimes | PubSub/Broker/command_execution.cpp:42-44 | k subscribe commands grow the cached size and the linked list to k, up to the maximum plus one |
| Subscriptions.Multiplicity | PubSub/Broker/command_execution.cpp:35-86 | over every run a pointer is on a list as often as its successful adds exceed its removals |
| Subscriptions.SizeBounded | PubSub/Broker/command_execution.cpp:42-60 | over every run a list never exceeds the maximum plus one |
| Subscriptions.SizeReached | PubSub/Broker/command_execution.cpp:42-44 | k subscriptions make a list of k up to that bound, which is so reached |
| Subscriptions.NumberReadsBack | PubSub/Broker/command_execution.cpp:105-122 | the reply fits and the client reads the size in it if and only if the size is at most 99999; the one larger size overruns |
| Subscriptions.OneNoticeEach | PubSub/Broker/command_execution.cpp:171-213 | over every run there is one well formed notice for each successful command |
| Decimal.NumeralFits | PubSub/Broker/command_execution.cpp:106-119 | a numeral fits k digits if and only if the number is below ten to the k |
| Decimal.ReadsBack | PubSub/Client/Client.cpp:207-208 | reading a printed number gives it back, up to the bound of the type |
| Tokens.Strtok | PubSub/StatsManager/file_updating.cpp:47-55 | the place of the first token and of the rest, with a null character between them and nothing else overwritten |
| Tokens.TakeTokens | PubSub/StatsManager/file_updating.cpp:51-55 | repeated calls find the parts of the string, each still terminated at the end |
| Tokens.PartsFirst | PubSub/StatsManager/file_updating.cpp:47-55 | a part in front, up to its delimiter, is the first part of a string |
| Tokens.PartsSkip | PubSub/StatsManager/file_updating.cpp:47-55 | delimiters in front are skipped, which with the row above says what the parts of any string are |
| StatsFile.PrintedFits | PubSub/StatsManager/file_updating.cpp:85-110 | three rows of any uint64 counters take at most 315 characters |
| StatsFile.StringifyStats | PubSub/StatsManager/file_updating.cpp:85-110 | succeeds if and only if the text is shorter than the buffer, and then the buffer holds it |
| StatsFile.ParseFileContent | PubSub/StatsManager/file_updating.cpp:43-83 | cutting the text in place yields the three rows of its first three lines |
| StatsFile.Columns | PubSub/StatsManager/file_updating.cpp:85-110 | the file has one line for each topic, in the order of the rows, with the numerals of publish, subscribe, unsubscribe, topic exists and subscriber number in this order |
| StatsFile.PrintedReadsBack | PubSub/StatsManager/file_updating.cpp:43-110 | parsing what was printed gives every counter back, cut down to 2^63 - 1 |
| StatsFile.RoundTripExact | PubSub/StatsManager/file_updating.cpp:43-110 | parsing gives the same fifteen numbers back if and only if all are below 2^63 |
| StatsUpdate.ResetStats | PubSub/StatsManager/file_updating.cpp:140-148 | all counters are zero |
| StatsUpdate.AddStats | PubSub/StatsManager/file_updating.cpp:192-198 | each counter is the sum modulo 2^64 |
| StatsUpdate.UpdateStats | PubSub/StatsManager/file_updating.cpp:170-211 | with both file operations done, an empty file becomes the printed counters in memory and another the printed sums with its own; otherwise the file stays; once it was read the counters in memory are zero; stringifying never fails |
| StatsUpdate.UpdatedRows | PubSub/StatsManager/file_updating.cpp:170-211 | after an update the file reads as the counters in memory, or the sums if it was not empty, cut down to 2^63 - 1 |
| Notifications.GetTopicStats | PubSub/StatsManager/notification_handling.cpp:4-14 | row 0 for "news", 1 for "updates", 2 for "warnings", none for any other name |
| Notifications.RowsOfTopics | PubSub/StatsManager/notification_handling.cpp:4-14 | these three names have these rows, no other has one, and no two share one |
| Notifications.HandleNotification | PubSub/StatsManager/notification_handling.cpp:16-40 | counts the notification found in the buffer, as the next row says |
| Notifications.NotedIs | PubSub/StatsManager/notification_handling.cpp:23-40 | in the row of the named topic the counter of the kind ('2' publish, '3' subscribe, '4' topic exists, '5' subscriber number, '6' unsubscribe) is one more modulo 2^64; everything else is as before, and all of it for another topic or kind |
| Notifications.HandleNotifications | PubSub/StatsManager/notification_handling.cpp:43-68 | the first notification is counted once for each frame; true if there was one; the buffer is zeroed |
| Notifications.HandledCounts | PubSub/StatsManager/notification_handling.cpp:48-61 | what a batch adds to each counter: all of it to that of the first notification |
| Notifications.FoldedCounts | PubSub/StatsManager/notification_handling.cpp:29-39 | counting each notification once adds to each counter the notifications about it |
| Notifications.CountMentions | PubSub/StatsManager/notification_handling.cpp:4-40 | the notifications about a counter are those that mention its topic by name and its kind |
| Notifications.AttributionExact | PubSub/StatsManager/notification_handling.cpp:48-61 | the loop counts a batch right if and only if all its notifications are about the same counter |
| Notifications.MiscountedBatch | PubSub/StatsManager/notification_handling.cpp:51 | a publication and a subscription received together are counted as two publications |
| Accounting.RunInOrder | PubSub/Broker/command_execution.cpp:152-168 | the notices sent are those received, then those in flight, in order |
| Accounting.UpdateConserves | PubSub/StatsManager/file_updating.cpp:192-210 | an update keeps what file and memory count if and only if the sum is below 2^63 |
| Accounting.CellAccounts | PubSub/StatsManager/notification_handling.cpp:48-61 | over every run file and memory count the initial count and the batches attributed to the counter |
| Accounting.KindAccounts | PubSub/StatsManager/notification_handling.cpp:29-39 | when each batch is about one counter, file, memory and flight together count the initial count (0 for an empty file) and the successful commands of each kind that name the topic: "news" in row 0, "updates" in row 1, "warnings" in row 2 |
| Accounting.SystemAccounts | PubSub/StatsManager/file_updating.cpp:170-211 | over every run file totals + counters in memory + notifications in flight = initial totals + successful commands, where an empty file counts nothing |
| Accounting.FailedWriteLoses | PubSub/StatsManager/file_updating.cpp:200-210 | an update that reads and cannot write keeps the file, and the totals in memory if and only if nothing was counted there |

## Left out

- Winsock calls: a receive is bytes or a close given from outside, a send is an entry in a log; that a
  receive brings whole commands is assumed, since the code puts no pieces together.
- What is printed to the console; the critical sections entered for printing are in the thread model.
- Failures of `malloc`, and `close_sockets_and_free_socket_list`, which reads and writes sockets it has
  just freed: memory management, not protocol.
- The client's menu, the stress test, the window placement, the runner and the project files.
- A client taking an answer for a subscription message on the same socket: the protocol does not tell
  them apart.
- The 20-second timer of the stats manager: an update is a step that may happen at any time.
- A file that is neither empty nor three lines of five numbers, which the parser is not made for, and a
  write that stops half way.
- A publish command without a '#' after its topic, and a command of one character: the decoders read
  or size buffers wrongly there and rely on the client not to send them.
- What the source does with the element of a `get` on an empty buffer: it prints, sends and frees what an
  unused or already freed slot holds, which C leaves undefined. The thread model goes on with an arbitrary
  element and a walk over its target. Pipeline.EveryStepDrains, Pipeline.HandshakeAdvances,
  Drain.WorkerStepsCloser and `Handshake` claim nothing there; in such states the other results speak of the
  model only. `Handshake.ShutdownSendsExtra` says when a shutdown gets there.
- `ReceiveLoop` hands the answers back instead of putting them in the outgoing buffer, which is in the thread
  model. Its outer loop is written as one turn and a call for the rest of the list.
- In the thread model `is_shutting_down` reads the flag and leaves its critical section in one step, and
  a walk over the subscribers is a count of nodes still to be visited; the walk itself is `Walk` and
  `Fanout`.
- Subscriptions.RunEvents: goes on after an overrun of a reply buffer, where the process ends; the runs of the
  source are those up to there.
- Subscriptions.NumberReadsBack: the client's buffer and the response's way through the outgoing buffer
  are not part of it.
