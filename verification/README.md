# A verified model of a small message broker

Three processes joined by shared-memory ring queues: a connect server that
speaks to clients, a logic server that is the broker, a persistence server that
keeps durable messages in files; and a client library. The project follows a
message all the way:

    producer -> framing -> ring -> broker -> ring -> log -> recovery
                                     |
                                     +----> ring -> output batching -> consumer

Where the code updates objects in place the model is a class whose methods are
proved equal to functions; the theorems are about those functions and about all
runs made of them.

## Files

| file | what it holds |
|---|---|
| CommonDefs.dfy, Bytes.dfy | shared sizes and codes; integer codec, C strings, copies |
| Ring.dfy, Resync.dfy, ShmQueue.dfy | the ring as bytes, the recovery scan, the queue class |
| RingProcesses.dfy, RingRuns.dfy, Intake.dfy | any number of processes on one ring, one copy at a time, and what the broker gets from it |
| FileNames.dfy, Records.dfy, DurableLog.dfy, PersistenceServer.dfy, Recovery.dfy | the durable log, the server that writes it, recovery |
| Topic.dfy, Exchange.dfy, MessageQueue.dfy | topic matching, exchanges, message queues |
| Broker.dfy, BrokerInvariant.dfy, ClientExits.dfy, BrokerTheorems.dfy, LogicServer.dfy | the broker as a state machine, what every run keeps, what an exit does, what follows, the class |
| Deliveries.dfy, Origins.dfy, Requests.dfy | over all runs: who gets what and must ack it, what every copy carries, what requests do to exchanges, queues and files |
| Ledger.dfy, Durability.dfy, Restarts.dfy | broker, log and recovery end to end, over one life of the broker and over many |
| Framing.dfy, SendBatch.dfy, Messages.dfy | packs in, packs out, packers |
| ServerPacks.dfy, Producer.dfy | acks and replies as bytes, the producer that reads them |
| Dedup.dfy, ProducerRuns.dfy, LostAcks.dfy | recognising repetitions, producer and broker together, which numbers are lost and which wait for ever |

## Main results

- `ShmQueues.ShmQueue`: the ring is a FIFO queue of byte strings, FULL exactly
  when a block does not fit, and after a damaged index the scan finds the next
  block exactly for bodies it cannot mistake for a trailer.
- `RingRuns.RunsAreSequential`: with any number of processes interleaved at
  single copies, results are those of a sequential queue in lock order.
- `Recovery.RecoveryIsPublishedMinusConsumed`: over all runs of writes,
  consumes and restarts, recovery rebuilds published minus consumed.
- `Durability.RecoveryIsWhatTheBrokerHas` and `Restarts.RecoveryAfterRestarts`:
  over all runs of the whole broker, and over any number of its lives, recovery
  rebuilds exactly what the broker still has of a durable queue.
- `BrokerTheorems`: message conservation, consistent registries, no dangling
  binding, exact effect of bindings, publications, acks and exits.
- `BrokerTheorems.TopicPublicationAdds` and its fanout and direct partners: how
  many copies a publication adds to a queue, in terms of words and keys only.
- `Deliveries.PullGoesToCaller`, `Deliveries.PushGoesToNextSubscriber`: over all
  runs, which message goes to which client, and whether it waits for an ack.
- `Origins.ContentsArePublished`, `Origins.PendingBelongsToReceiver`: over all runs,
  what every copy, waiting, pending or sent, has from the publication that made
  it, and whose a pending one is.
- `MessageQueues.PutAndDrained`, `MessageQueues.HighestFirst`: the order in which
  whatever was put into a queue comes out.
- `Requests.FilesAreOfDurableQueues`: over all runs, files are kept for exactly
  the durable queues.
- `Framing.ClientConnect.Receive`: framing does not depend on how the stream
  is cut.
- `Dedup.KeyIsStored`: over all runs, exits included, exactly which publications
  are taken for repetitions.
- `ProducerRuns.NothingLostNothingTwice`, `LostAcks.SafeIffNoReplyReadsSo` and
  `LostAcks.SticksIffItsAckWasLost`: what single-ack mode gives, exactly which
  numbers a run can lose, and exactly when a producer waits for ever.
- `Intake.AllAreGotIffAllFit`: exactly when the broker gets all packs.

## Where the code differs from its documentation

- client/client.cpp:813 says a message is resent after 3 s; the comparison is with
  3*1000*1000 milliseconds, 3000 s. The model has the number of the code.
- The repository's own README.md:248 intends several queues under one key; in
  the bound-key branch `CreateBinding` adds to a copy of the list, so a key keeps
  its first queue and the request still succeeds. A binding takes effect exactly
  when the key was free or bound to this queue (`BrokerTheorems.BindingTakesEffect`);
  `BrokerTheorems.TwoQueuesUnderOneKey` is a run with two queues under one key and
  `SecondQueueGetsNothing` what a publication does after it. `DeleteBindingQueue`
  works on a copy too, which is sound only because lists stay singletons
  (`Exchanges.BindingsStaySingle`, `Exchanges.SharedKeyWouldKeepQueue`).
- Topic wildcards are looked for in the routing key, not in the binding key, and
  a leading `#` never matches (`Topic.FitsIsGlobUnlessLeadingHash`). As patterns,
  exactly the binding keys without wildcards work
  (`Topic.BindingPatternsFitWhenPlain`).
- A repeated publication is answered to client -1, because the client index is
  not set in that branch. So, as long as the broker remembers the client, a
  stored message is resent for ever exactly when the ack of the serve that stored
  it was lost (`LostAcks.SticksIffItsAckWasLost`, with a run in
  `AProducerCanBeStuck`).
- `RecvServerAck` does not look at the command of a pack. The reply to a
  publication that fails begins with a zero and "Exc" or "Fit", which is read as
  an ack for number 4552803 or 4614516; a message with that number is forgotten
  though nothing stored it. No other number can be lost
  (`LostAcks.SafeIffNoReplyReadsSo`, with a run in `ANumberIsLost`).
- The connect server passes packs of up to 65535 bytes, the broker takes them
  into 11264 bytes; a longer one at the head of the ring stops the broker for ever
  (`Intake.AllAreGotIffAllFit`, `Intake.BlockedForEver`).
- A resend packs into a buffer that is not zeroed; the names are then read back
  only if the buffer happens to hold a NUL behind them
  (`Messages.PublishRoundTrip`).
- A client's exit forgets the keys of every client whose number starts with its
  digits (`Dedup.ExitForgets`), so a number can be stored twice
  (`Dedup.ExitOfOneStoresTenTwice`); exactly when, says `Dedup.KeyIsStored`.
- A pending message whose queue is gone is erased on exit and never deleted; the
  model counts it as dropped.
- The exit notice is enqueued with the whole buffer length, 11264 bytes, since
  its packer does not set the length; the receiver reads the first eight.
- A durable message in a queue that is not durable still causes a consume, with
  index -1, when it leaves the broker.
- A malformed pack length is never skipped: once the buffer is full, recv is
  asked for nothing, returns 0, and the client is taken to have left.

## Assumptions

- Sequential consistency; memory barriers play no part.
- Sends to the persistence ring succeed, and sends to sockets too, except in
  `Producers.Producer`. An ack to a producer may be lost (`ProducerRuns`), as its
  ring may be full.
- Compaction never runs. In the code `PersistenceServer::Run` calls `ClearUpFile`
  whenever its ring is idle (PersistenceServer/PersistenceServer.cpp:1153-1158), so
  the results about the log hold up to the first call that changes a file.
- The walk order of an unordered_map and the choice among heap entries of equal
  priority are open: theorems hold for every choice.
- recv delivers any non-empty piece that fits; the clock never goes back.
- Names are shorter than 32 bytes and hold no NUL. Counters do not reach the
  limit of an int.
- Queue objects of the logic server are map entries known by identity, so a
  pointer that outlives its queue can be expressed; `MessageQueues.MessageQueue`
  is proved against the functions that `LogicServers.LogicServer` applies to them.

## Model

| member | source | states |
|---|---|---|
| ShmQueues.ShmQueue.constructor | shm_queue/shm_queue.cpp:39-125 | a new ring is empty and undamaged, for any size |
| ShmQueues.ShmQueue.Enqueue | shm_queue/shm_queue.cpp:127-276 | FULL exactly when what is stored plus the data plus 14 exceeds the ring, and then nothing changes; otherwise the data becomes the last block, wherever header, body or trailer is split; the CAS lock is free again |
| ShmQueues.ShmQueue.WriteBlock | shm_queue/shm_queue.cpp:195-262 | the copies of either branch store header, body and trailer as one block that goes round the end of the ring |
| ShmQueues.ShmQueue.CopyPiece | shm_queue/shm_queue.cpp:209-257 | one copy of the wrapping branch stores its bytes going round and keeps the room that the next copy relies on |
| ShmQueues.ShmQueue.Dequeue | shm_queue/shm_queue.cpp:278-472 | hands out exactly the oldest block and removes it; EMPTY and a small buffer change nothing; a wrong index makes it skip to the end of the first run of six flags; the branches that empty the queue, and the one for a bad trailer, are never taken |
| ShmQueues.ShmQueue.TakeBlock | shm_queue/shm_queue.cpp:392-448 | body and trailer are read whole across the end of the ring and the head lands on the next block |
| ShmQueues.ShmQueue.ScanForTrailer | shm_queue/shm_queue.cpp:353-375 | the scan ends, within body length plus six steps, behind the first six flags in a row |
| Ring.FreeSpaceIsRest | shm_queue/shm_queue.cpp:167-183 | the three-way formula for free space is the ring length minus what the blocks occupy, whatever wraps |
| Ring.AppendedHolds | shm_queue/shm_queue.cpp:195-262 | a block written at the tail makes the ring hold one more block, the older ones unharmed |
| Ring.OldestBlock | shm_queue/shm_queue.cpp:309-330 | header, body and trailer read from the head, going round, are those of the oldest block |
| Ring.RemovedHolds | shm_queue/shm_queue.cpp:442-444 | moving the head over the oldest block leaves the later ones |
| Resync.ScanFindsNextBlock | shm_queue/shm_queue.cpp:348-376 | the scan stops exactly at the next block if and only if the body has no run of six flags and does not end in one |
| RingProcesses.CopiesWriteBlock | shm_queue/shm_queue.cpp:195-262 | the single copies an enqueuing process performs add up to writing the block |
| RingProcesses.FetchesRead | shm_queue/shm_queue.cpp:309-330 | the one or two copies of a read yield the bytes going round |
| RingProcesses.WorkKeeps | shm_queue/shm_queue.cpp:167-458 | every single step of the lock holder, copy by copy, stays on the course of its operation |
| RingRuns.RunKeepsInv | shm_queue/shm_queue.cpp:155-273 | over any interleaving of any number of processes the ring is what the sequential queue has, up to the holder's unfinished operation |
| RingRuns.MutualExclusion | shm_queue/shm_queue.cpp:155-165 | never are two processes between lock and unlock |
| RingRuns.ReleaseSucceeds | shm_queue/shm_queue.cpp:264-273 | the holder finds the lock word at 1, so its releasing CAS succeeds the first time |
| RingRuns.RunsAreSequential | shm_queue/shm_queue.cpp:127-472 | the results of every run are those of a sequential FIFO queue in the order in which the lock was taken |
| RingRuns.HolderAdvances | shm_queue/shm_queue.cpp:167-273 | every step of the lock holder brings it nearer to the release, and it is fourteen steps away at most |
| Intake.AllAreGotIffAllFit | logicServer/logicServer.cpp:2844-2860 | for every sequence of puts and of the broker's gets: it can get all packs put on the ring if and only if none is longer than 11264 bytes |
| Intake.BlockedForEver | logicServer/logicServer.cpp:2855-2860 | when the next pack is longer every later get returns BUF_SMALL, which the loop neither counts nor stops at, and nothing more is got |
| Intake.BrokerGetsTheFront | logicServer/logicServer.cpp:2844-2860 | with any processes and schedule: what the broker was handed is the front of what was put, in order, and fits its buffer |
| Intake.StreamIsGotIffAllFit | connectServer/connectServer.cpp:231-256 | the packs of a client's stream can all reach the broker if and only if none announces more than 11264 bytes |
| Intake.LongPackBlocks | connectServer/connectServer.cpp:231-256 | framing and ring let a longer pack through, and it blocks the broker |
| Bytes.CStringReadsBack | logicServer/logicServer.cpp:1629-1639 | a name read through a C string comes back exactly when a NUL or the end of the field follows it |
| Bytes.IntRoundTrip | mq_util/mq_util.cpp:157-195 | WriteInt then ReadInt gives the number back, negative ones included |
| Records.RecordRoundTrip | message/message.cpp:394-421 | a serialised record is read back at its position with name, index and priority intact and the body up to its first NUL |
| Records.RecordAt | logicServer/logicServer.cpp:1272-1317 | the k-th record of a data file is found at the length of the records before it |
| Records.EntryOf | PersistenceServer/PersistenceServer.cpp:399-410 | the k-th index entry holds the index and the start position of the k-th record |
| Records.ReplayRestores | logicServer/logicServer.cpp:1191-1324 | replaying the first k entries yields exactly their records whose index was not consumed |
| Records.CutIsIdentity | logicServer/logicServer.cpp:1311-1317 | a body survives recovery if and only if it holds no NUL |
| FileNames.NameOrder | PersistenceServer/PersistenceServer.cpp:519-531 | group names, compared as strings, sort exactly as the indices they were made from; different indices, different names |
| FileNames.ListingIsUnique | PersistenceServer/PersistenceServer.cpp:584-623 | a sorted listing of a directory is determined by the set of names |
| DurableLog.WriteKeeps | PersistenceServer/PersistenceServer.cpp:318-423 | writing a record with a larger index keeps names, index entries, size limit, tail and memory consistent and adds just that record to the outstanding ones |
| DurableLog.GroupIsOpenedWhenFull | PersistenceServer/PersistenceServer.cpp:339-360 | a write opens a group if and only if there is no tail or the record does not fit behind what the tail's data file holds; otherwise the record goes there, and no other data file changes |
| DurableLog.ConsumeKeeps | PersistenceServer/PersistenceServer.cpp:425-516 | consuming an outstanding index takes out just its record; a group is deleted only when all its records are consumed, and tail, list and disk stay consistent |
| DurableLog.AllConsumed | PersistenceServer/PersistenceServer.cpp:467-513 | equal counts of distinct consumed indices and records mean that every record of the group was consumed |
| DurableLog.RepeatedConsumeLosesRecord | PersistenceServer/PersistenceServer.cpp:467-513 | when an index may be consumed twice, a group can be deleted with a record nobody consumed |
| DurableLog.RestartKeeps | PersistenceServer/PersistenceServer.cpp:533-581 | what is rebuilt at start agrees with what was kept, for every group still on disk |
| DurableLog.SortedNamesAreTitles | PersistenceServer/PersistenceServer.cpp:549-575 | the sorted index files are the live groups in the order of their indices |
| DurableLog.TailIsOnDisk | PersistenceServer/PersistenceServer.cpp:339-360 | the data file of the remembered tail group exists whenever its size is asked for |
| PersistenceServers.PersistenceServer.constructor | PersistenceServer/PersistenceServer.cpp:533-581 | a server started on found directories knows for each queue what the sorted index files say |
| PersistenceServers.PersistenceServer.ProcessIndexFile | PersistenceServer/PersistenceServer.cpp:625-664 | every entry of an index file is placed in its group, the first group to claim an index keeps it |
| PersistenceServers.PersistenceServer.OnPublishMessage | PersistenceServer/PersistenceServer.cpp:318-423 | appends record, entry and offset, in a new group when there is no tail or the file would outgrow its limit; no other queue changes |
| PersistenceServers.PersistenceServer.OnConsumeMessage | PersistenceServer/PersistenceServer.cpp:425-516 | appends the index and deletes the group when the counts agree; no other queue changes; the error cases |
| PersistenceServers.PersistenceServer.RemoveGroup | PersistenceServer/PersistenceServer.cpp:467-513 | the three files and the list entry go; the tail is forgotten only if it was this group |
| Recovery.ProcessDurableMsgFile | logicServer/logicServer.cpp:1191-1324 | the two loops produce the replay of the group; at the first record of an unregistered queue they stop with the replay of the entries before it; an error exactly when index or data file is empty |
| Recovery.ReadConsumed | logicServer/logicServer.cpp:1233-1256 | the loop collects the set of indices in a consume file |
| Recovery.RunIsSound | PersistenceServer/PersistenceServer.cpp:318-581 | in every legal run of writes, consumes and restarts the log is sound and its outstanding records are those written and not consumed |
| Recovery.RecoveryIsPublishedMinusConsumed | logicServer/logicServer.cpp:918-968 | recovery from any legal run is published minus consumed, in index order; the next index is one above the last written, also when its group is gone |
| Recovery.BodiesSurviveWithoutNul | logicServer/logicServer.cpp:1311-1317 | recovered bodies are whole if and only if none holds a NUL |
| Topic.Tokenise | logicServer/logicServer.cpp:245-271 | the loop yields the non-empty dot-free pieces in order |
| Topic.WordsOfJoin | logicServer/logicServer.cpp:245-271 | cutting a joined list of words gives the list back |
| Topic.CellRecurrence | logicServer/logicServer.cpp:281-300 | the recurrence of the table computes the word-glob relation of prefixes |
| Topic.IsFit | logicServer/logicServer.cpp:235-301 | the table's last cell is the match of the two keys as coded |
| Topic.FitsIsGlobUnlessLeadingHash | logicServer/logicServer.cpp:235-301 | for all keys: a match is the word-glob relation unless the routing key starts with '#', which never matches |
| Topic.WildcardsOfBindingsAreIgnored | logicServer/logicServer.cpp:285-299 | wildcards in a binding key stand for themselves: without wildcards in the routing key only equal word lists match |
| Topic.BindingPatternsFitWhenPlain | logicServer/logicServer.cpp:285-299 | wildcards in a binding key work as documented, for all routing keys without wildcards, if and only if the binding key has none |
| Exchanges.BindingsStaySingle | logicServer/logicServer.cpp:212-233 | lists of queues stay singletons, and then deleting a queue removes exactly the keys bound to it |
| Exchanges.SharedKeyWouldKeepQueue | logicServer/logicServer.cpp:365-382 | with a list of two queues under a key, which no run makes, deletion would leave the deleted one bound |
| Exchanges.ListedOncePerKey | logicServer/logicServer.cpp:303-358 | a queue is listed once for every selected key it is bound under, in any order of the walk |
| Exchanges.FoundAreRouted | logicServer/logicServer.cpp:303-358 | the queues found are exactly those bound under a key that is the routing key (direct), any key (fanout), or a key that the routing key matches as a glob of words, none if its first word is '#' (topic) |
| Exchanges.FindBound | logicServer/logicServer.cpp:303-358 | a look-up or a walk over every key once; what it lists are exactly the queues bound under a key that is equal, any, or matched by the routing key as a glob of words without a leading '#' |
| Exchanges.DirectIsLookup | logicServer/logicServer.cpp:303-320 | a direct exchange selects just its routing key |
| Exchanges.Exchange.CreateBinding | logicServer/logicServer.cpp:212-233 | binds a new key; a bound key keeps the queue it has |
| Exchanges.Exchange.FindBindingQueue | logicServer/logicServer.cpp:303-358 | returns exactly the queues bound under such a key, walking every key once |
| Exchanges.Exchange.DeleteBindingQueue | logicServer/logicServer.cpp:360-388 | deletes the keys whose list holds no other queue |
| MessageQueues.DrainOrder | logicServer/logicServer.cpp:41-62 | draining yields a permutation of the contents: prioritised messages by falling priority, then normal ones in order of arrival, however ties are broken |
| MessageQueues.PutAndDrained | logicServer/logicServer.cpp:77-115 | whatever is put into a new queue of priority P comes out so: first, if P is above 0, the messages with a priority above 0, by falling minimum of P and their priority, then the others in order of arrival |
| MessageQueues.HighestFirst | logicServer/logicServer.cpp:41-62 | over any sequence of adds, returns and pops from a new queue: a pop takes a message of the highest capped priority held, and one without priority only when none with priority is held |
| MessageQueues.CanBeDrained | logicServer/logicServer.cpp:41-75 | every queue can be drained to the last message |
| MessageQueues.AddHolds | logicServer/logicServer.cpp:77-115 | adding at either end adds that message and loses none |
| MessageQueues.PopHolds | logicServer/logicServer.cpp:41-75 | popping takes out one held message and no other |
| MessageQueues.PushesInTurn | logicServer/logicServer.cpp:64-73 | while subscribers stay the same, pushes go to them in turn, whatever else happens and whatever the index was |
| MessageQueues.PushesAreFair | logicServer/logicServer.cpp:64-73 | of any m consecutive pushes each of n subscribers gets m/n rounded down or up |
| MessageQueues.MessageQueue.PopFrontMsg | logicServer/logicServer.cpp:41-75 | pops exactly when a message is held and a push has a subscriber; the push index stays in bounds |
| MessageQueues.MessageQueue.AddMessage | logicServer/logicServer.cpp:77-95 | with a queue priority above 0, exactly a message with a priority above 0 joins the heap, with the lower of the two; any other goes to the end of the list |
| MessageQueues.MessageQueue.AddMessageFront | logicServer/logicServer.cpp:97-115 | exactly such a message joins the heap likewise; any other goes to the front of the list |
| MessageQueues.MessageQueue.ClearMessage | logicServer/logicServer.cpp:117-133 | everything held is deleted, each message once |
| MessageQueues.MessageQueue.AddSubscribe | logicServer/logicServer.cpp:135-151 | the client is on the list once, behind those already there; the confirm level is the one asked for |
| MessageQueues.MessageQueue.CancelSubscribe | logicServer/logicServer.cpp:153-167 | the client is gone from the list, although the loop skips an element |
| BrokerInvariant.RunKeepsInv | logicServer/logicServer.cpp:1326-2489 | every run of requests, pushes, acks and exits keeps registries, bindings, places and numbering consistent |
| BrokerTheorems.RegistriesAgree | logicServer/logicServer.cpp:1926-1987 | a name is in one registry at most, subscribed means having a subscriber, bound queues are registered: so PushMessage never meets a queue without subscribers |
| BrokerTheorems.DeletedQueueIsForgotten | logicServer/logicServer.cpp:2036-2116 | after a queue is deleted by request no exchange refers to it, exactly the emptied auto-delete exchanges are gone, other bindings stay, its messages are dropped |
| BrokerTheorems.EveryCopyInOnePlace | logicServer/logicServer.cpp:1341-1405 | every copy ever stored is in one place; queues and pending list hold exactly the copies placed there, each once |
| BrokerTheorems.CopiesMoveOnlySo | logicServer/logicServer.cpp:1341-1405 | a push or request moves only a copy of the queue it names, an ack only the message it names; a waiting copy is dropped only when its queue is gone; an exit sends a pending copy of the client to the queue of its name or, without one, drops it; only publications make copies |
| BrokerTheorems.PublishAddsPerKey | logicServer/logicServer.cpp:1689-1726 | a publication adds to each queue as many copies as it has selected keys, a repetition none |
| BrokerTheorems.BindingTakesEffect | logicServer/logicServer.cpp:212-233 | in every run, binding an existing queue to an existing exchange has its effect if and only if the key was free or bound to this queue; otherwise nothing changes |
| BrokerTheorems.DirectPublicationAddsToOne | logicServer/logicServer.cpp:303-320 | a publication to a direct exchange adds one copy to the queue its key is bound to and none to any other |
| BrokerTheorems.TopicPublicationAdds | logicServer/logicServer.cpp:285-353 | in every run an unrepeated publication to a topic exchange adds to a queue as many copies as there are keys bound to it that the routing key matches as a glob of words, and none if the first word of the routing key is '#' |
| BrokerTheorems.FanoutPublicationAdds | logicServer/logicServer.cpp:321-337 | to a fanout exchange, as many as there are keys bound to the queue |
| BrokerTheorems.TwoQueuesUnderOneKey | logicServer/logicServer.cpp:1551-1621 | the run that binds two queues under one key: only the first is bound |
| BrokerTheorems.SecondQueueGetsNothing | logicServer/logicServer.cpp:1689-1726 | after that run a publication with the key adds one copy to the first queue and none to the second |
| BrokerTheorems.AckTakesOne | logicServer/logicServer.cpp:2259-2296 | pending numbers increase strictly and stay below the counter, so an ack takes out the one message that carries its number or nothing |
| BrokerTheorems.ExitGivesBack | logicServer/logicServer.cpp:2463-2489 | after an exit none of the client's messages is pending, all others are; each surviving queue's normal list is the reversed returned messages followed by the old list |
| BrokerTheorems.ExitDeletesAndDrops | logicServer/logicServer.cpp:2362-2489 | in every run an exit deletes a queue if and only if it is auto-delete and the client was its only subscriber; exactly the auto-delete exchanges go that bound nothing else; a waiting copy is dropped exactly when its queue is gone, a pending one exactly when it is the client's and no queue of its name is left |
| BrokerTheorems.NoEmptiedExchangeRemains | logicServer/logicServer.cpp:2388-2427 | no auto-delete exchange that had bindings is empty after an exit |
| Deliveries.SubscriptionTakesEffect | logicServer/logicServer.cpp:1926-1987 | in every run a subscription to a queue that exists puts the client on its list, sets the level asked for and moves the queue to the subscribed registry; nothing else changes |
| Deliveries.LevelsOverRuns | logicServer/logicServer.cpp:135-167 | over every run a queue with subscribers has the level of the last subscription to it, and its messages are kept by priority |
| Deliveries.PullGoesToCaller | logicServer/logicServer.cpp:1862-1923 | in every run a request for a message takes the next one of the queue and sends it, body unchanged, to the client that asked; with a level above 0 it is the last one pending, with the next number, otherwise it is gone, and consumed if durable; without a message nothing changes |
| Deliveries.PushGoesToNextSubscriber | logicServer/logicServer.cpp:1341-1405 | in every run a push sends the next message of the queue to the subscriber whose turn it is; it is pending, with that level, if and only if the last subscription to the queue had a level above 0 |
| Origins.ContentsArePublished | logicServer/logicServer.cpp:1694-1726 | over every run, durable or not: every copy waiting or pending has body and durable flag of its publication, and its priority under the limits of the queues it was put into; every message sent has that body |
| Origins.OriginsAreTheMakers | logicServer/logicServer.cpp:1694-1726 | the publication a copy is held to is the one whose event made the copy |
| Origins.PendingBelongsToReceiver | logicServer/logicServer.cpp:1873 | over every run a pending message belongs to the client it was last pushed to or that asked for it, so that client's exit gives it back |
| Requests.ExchangesChangeOnlySo | logicServer/logicServer.cpp:1410-1621 | in every run: a request makes an exchange as asked if the name is free, binds one free key to one queue, or deletes the exchange it names, and changes nothing else; all other events take away exactly the bindings to queues that went, and the auto-delete exchanges emptied by that |
| Requests.ExchangeIsAsRequested | logicServer/logicServer.cpp:1410-1479 | over every run each exchange has type and flags of the request that made it when the name was free, and has been there since |
| Requests.QueuesChangeOnlySo | logicServer/logicServer.cpp:1481-1549 | in every run: which events make and delete queues, and who subscribes to the others afterwards; an exit takes just that client off every list, in order |
| Requests.QueueIsAsRequested | logicServer/logicServer.cpp:1481-1549 | over every run each queue has name, priority and flags of the request that made it when the name was free, and has been found under that name since |
| Requests.FilesAreOfDurableQueues | logicServer/logicServer.cpp:2067-2084 | over every run the persistence server, by what it is told, keeps files for exactly the durable queues there are, is never told to make files twice or to remove missing ones, and stores only for queues with files |
| Requests.PublicationIsAnswered | logicServer/logicServer.cpp:1660-1812 | in every run: which reply or ack a publication gets, in terms of the stored keys, the exchanges and the matching keys |
| ClientExits.ExitMovesExactly | logicServer/logicServer.cpp:2362-2489 | what an exit does to exchanges and copies, whatever walk it takes |
| ClientExits.ExitDeletesExactly | logicServer/logicServer.cpp:2362-2461 | which queues an exit deletes, when the walk meets every subscribed queue |
| LogicServers.LogicServer.OnCreateExchange | logicServer/logicServer.cpp:1410-1479 | the state after creating an exchange; an existing one is left alone |
| LogicServers.LogicServer.OnCreateQueue | logicServer/logicServer.cpp:1481-1549 | the state after creating a queue; an existing one is left alone |
| LogicServers.LogicServer.OnCreateBinding | logicServer/logicServer.cpp:1551-1621 | the state after binding, and when it is refused |
| LogicServers.LogicServer.OnCreateSubscribe | logicServer/logicServer.cpp:1926-1987 | the queue has the subscriber and the level asked for and is in the subscribed registry, or the request is refused |
| LogicServers.LogicServer.OnDeleteExchange | logicServer/logicServer.cpp:1990-2034 | the exchange goes, or the request is refused |
| LogicServers.LogicServer.OnDeleteQueue | logicServer/logicServer.cpp:2036-2116 | the queue, its messages and its bindings go, or the request is refused |
| LogicServers.LogicServer.DeleteBindings | logicServer/logicServer.cpp:2087-2109 | the walk over the exchanges deletes bindings and emptied auto-delete exchanges |
| LogicServers.LogicServer.OnPublishMessage | logicServer/logicServer.cpp:1623-1812 | repetition, missing exchange, no queue, or one copy per listed queue, with the acks, the reply to a failure and the stored keys |
| LogicServers.LogicServer.OnRecvMessage | logicServer/logicServer.cpp:1832-1924 | one message is popped and sent to the client that asked; with a level above 0 it is the last one pending, numbered; or the reason why not |
| LogicServers.LogicServer.PushMessage | logicServer/logicServer.cpp:1326-1408 | the nested loops are single pushes that leave every subscribed queue empty |
| LogicServers.LogicServer.OnClientAck | logicServer/logicServer.cpp:2249-2296 | the first pending message with the number is acknowledged |
| LogicServers.LogicServer.OnClientExit | logicServer/logicServer.cpp:2344-2491 | keys are forgotten, subscriptions cancelled, queues deleted or moved, pending messages given back |
| LogicServers.LogicServer.CancelSubscriptions | logicServer/logicServer.cpp:2362-2461 | every subscribed queue is left once, while the walk removes entries |
| LogicServers.LogicServer.GiveBackMessages | logicServer/logicServer.cpp:2463-2489 | the erasing walk over the pending list gives back exactly the client's messages |
| Ledgers.BalancedStore | logicServer/logicServer.cpp:1694-1708 | storing a persistent message keeps the account of queue and log balanced |
| Ledgers.BalancedReturn | logicServer/logicServer.cpp:2468-2484 | giving a pending message back keeps the account balanced |
| Durability.StepTracked | logicServer/logicServer.cpp:1326-2489 | every request keeps each durable queue's account balanced |
| Durability.RunTracked | logicServer/logicServer.cpp:1326-2489 | in every run what the broker holds of a durable queue, waiting or pending, is what it told the log to write and not to consume |
| Durability.RecoveryIsWhatTheBrokerHas | logicServer/logicServer.cpp:918-968 | broker, log and recovery end to end: recovery rebuilds exactly the durable messages the broker still has of the queue, none twice, and numbering goes on where it was |
| Restarts.LiveKeepsInv | logicServer/logicServer.cpp:574-580 | starting the broker again, whatever queues it finds, keeps the invariant: so do all its lives |
| Restarts.BootTracked | logicServer/logicServer.cpp:582-704 | a start from what recovery finds makes the account of the durable queue balance again |
| Restarts.StartBringsBack | logicServer/logicServer.cpp:582-760 | after any start the broker has exactly the queues found, each with its definition, subscribers, level and next index; recovered messages are given out by priority under the queue's limit, else in the order in which they were recovered; nothing is pending |
| Restarts.LiveTracked | logicServer/logicServer.cpp:574-580 | over any number of lives, what the broker holds of a durable queue is what it told the log to write and not to consume |
| Restarts.RecoveryAfterRestarts | logicServer/logicServer.cpp:918-968 | over any number of lives, recovery rebuilds exactly the durable messages the broker still has of the queue, none twice, and numbering goes on where it was |
| Restarts.NextLifeIsPossible | logicServer/logicServer.cpp:918-968 | whenever the queue's log was written to, the broker can be started from it and has the queue then |
| Framing.ParseSplits | connectServer/connectServer.cpp:410-457 | packs and leftover are the stream, nothing lost or reordered, and the leftover has no whole pack at its front |
| Framing.ParseOfPacks | connectServer/connectServer.cpp:410-457 | a sender's packs come out as they went in |
| Framing.ParseResumes | connectServer/connectServer.cpp:407-457 | cutting the leftover together with what arrives next is cutting the whole stream: how recv splits it does not matter |
| Framing.LeftoverIsShort | connectServer/connectServer.cpp:357-358 | the leftover is shorter than the buffer unless its header announces less than a header; then nothing behind it is ever delivered |
| Framing.StampIsIndex | connectServer/connectServer.cpp:249-251 | the stamp is the client index in bytes 2 to 5 and nothing else |
| Framing.ClientConnect.GetClientPackageFromBuff | connectServer/connectServer.cpp:231-256 | succeeds exactly on a whole pack and stamps it; otherwise the buffer is untouched |
| Framing.ClientConnect.Receive | connectServer/connectServer.cpp:405-457 | after any pieces the queue holds the stamped packs of the whole stream and the buffer exactly its leftover |
| Framing.ClientConnect.Room | connectServer/connectServer.cpp:357-358 | there is room for the next recv unless the client sent a malformed length |
| SendBatch.SendBuffer.Put | connectServer/connectServer.cpp:591-633 | appends to what the client was given, flushing first when there is no room |
| SendBatch.ConnectServer.Round | connectServer/connectServer.cpp:523-674 | after a round every buffer is empty and each client was sent exactly its packs, whole and in order; packs for absent clients cause notices; unfit packs are dropped |
| SendBatch.ConnectServer.Gather | connectServer/connectServer.cpp:523-640 | the first loop, with its flushes in between |
| SendBatch.ConnectServer.SendAll | connectServer/connectServer.cpp:641-674 | the second loop, with repeated entries |
| Messages.PackPublish | message/message.cpp:156-203 | the packer's fields and errors, with a length of 16 bits; gaps behind the names keep what the buffer held |
| Messages.PublishRoundTrip | logicServer/logicServer.cpp:1623-1700 | a publication is read as it was sent if and only if both names are followed by a NUL in the buffer |
| Messages.SerializeDurableToString | message/message.cpp:394-421 | the bytes written are the record that recovery reads |
| Messages.StampedReadsTheSame | connectServer/connectServer.cpp:249-251 | the broker reads the same message from a stamped pack |
| Messages.DeliveryReaches | message/message.cpp:364-391 | a delivery is sent on to the client it is for and is read as it was written |
| Producers.Producer.PuslishMessage | client/client.cpp:655-696 | what is sent, numbered and remembered; a message that cannot be packed uses up a number and leaves the connection, one that cannot be sent closes it |
| Producers.Producer.RecvServerAck | client/client.cpp:697-773 | reads a number in every whole pack received, whatever its command, keeps the rest for later, and erases exactly the messages with these numbers |
| Producers.Producer.ReadNumbers | client/client.cpp:709-751 | the loop over the received packs reads one number in each and stops before an incomplete one |
| Producers.Producer.EraseAcked | client/client.cpp:757-773 | exactly the acknowledged messages are erased and the rest keep their order |
| ServerPacks.AckReadsBack | message/message.cpp:491-512 | an ack goes to its client, which reads the number it was made with |
| ServerPacks.ReplyReadsAsNumber | message/message.cpp:429-453 | a reply goes to its client, which reads flag and first three characters as a number |
| ServerPacks.ComplaintsReadAs | logicServer/logicServer.cpp:1685-1696 | the two replies to a failed publication read as 4552803 and 4614516 |
| ServerPacks.ServerStreamIsReadable | client/client.cpp:709-751 | whatever part of a stream of acks and replies has arrived, its packs are those sent and each has a number |
| Producers.Producer.ReSendMsg | client/client.cpp:800-840 | every expired message is sent once, no other is, the early stop misses none, the loop ends, numbers and order by time are kept; when the socket fails the connection is closed, what was sent is a prefix, and the message at hand has moved to the back |
| Producers.ResendKeepsNumbers | client/client.cpp:815-828 | the multiset of pending numbers is unchanged |
| Dedup.KeysAreInjective | logicServer/logicServer.cpp:1653 | different clients or numbers have different keys |
| Dedup.RepeatsAreRecognised | logicServer/logicServer.cpp:1660-1672 | in every run, a publication is taken for a repetition exactly when one with its client and number was stored and no client left since whose number starts with its client's digits |
| Dedup.NeverStoredTwice | logicServer/logicServer.cpp:1660-1672 | a client and number once stored create no copy again, unless a client left in between whose number starts with the same digits |
| Dedup.KeyIsStored | logicServer/logicServer.cpp:2347-2360 | in every run the broker has a key exactly when it stored it and did not forget it since |
| Dedup.NobodysExitForgetsNobody | connectServer/connectServer.cpp:556-574 | the exit notice for client -1, which every acknowledged repetition causes, forgets no client |
| Dedup.ExitOfOneStoresTenTwice | logicServer/logicServer.cpp:2352 | a run of six requests in which client 1 leaves and a number of client 10 is stored twice |
| Dedup.ExitForgets | logicServer/logicServer.cpp:2347-2360 | an exit forgets the keys of exactly those clients whose number starts with the leaving one's digits |
| Dedup.ClientTenIsForgottenWithOne | logicServer/logicServer.cpp:2352 | so the exit of client 1 forgets client 10 |
| ProducerRuns.NothingLostNothingTwice | client/client.cpp:655-840 | over all runs, lost acks, unpackable messages and exits of other clients included: a number that went out is pending or was stored, unless it is one of the two that replies read as; between two stores of a number a client left whose number starts with the same digits |
| ProducerRuns.NothingLostWithoutFailures | client/client.cpp:697-773 | in runs in which no publication of the client fails, every number that went out is pending or was stored, the two included |
| LostAcks.SafeIffNoReplyReadsSo | client/client.cpp:736-748 | no run loses a number that went out if and only if it is neither 4552803 nor 4614516 |
| LostAcks.ANumberIsLost | client/client.cpp:736-748 | the run that loses 4552803: its message names an exchange that is not there, and the reply is read as its ack |
| LostAcks.SticksIffItsAckWasLost | logicServer/logicServer.cpp:1660-1672 | as long as the broker remembers the client: a stored number stays with the producer in every continuation if and only if the serve that stored it lost its ack and no reply reads as that number |
| LostAcks.AProducerCanBeStuck | logicServer/logicServer.cpp:1789-1803 | a run of five moves in which that happens to number 0 |
| LostAcks.LostAckIsNeverMadeUp | logicServer/logicServer.cpp:1660-1672 | a number that is stored and pending without an ack under way stays so while the broker remembers the client: repetitions are answered to nobody |
| ProducerRuns.AcksOfServing | logicServer/logicServer.cpp:1660-1696 | what serving a pack makes its client read: its number exactly when it is stored by that, nothing for a repetition, and one of the two numbers when the publication fails |
| ProducerRuns.ResendRotates | client/client.cpp:815-828 | ReSendMsg moves the expired messages to the back of the list |
| ProducerRuns.HearErases | client/client.cpp:757-773 | RecvServerAck erases the acknowledged messages |

## Left out

- `ClearUpFile` and `MergeFiles`: the index buffer is never advanced, positions are not rebased and the tail map is not updated, so compaction does not preserve recovery.
- Cumulative acks on both sides: the consumer branch cannot be reached, and `SendMultiAck` never advances its iterator. Of multi-ack mode only the stored key is modelled.
- `OnCancelSubscribe`: it drops the queue from the subscribed map even when subscribers remain, and the shipped client never sends it.
- `OnInitQueue` and `OnInitExchange`: definitions and subscribers of the queues that come back are taken as given, exchanges and bindings are made by requests that follow; a queue directory without an offset file is not registered again.
- `FindPosInIndexFile`, `FindMessageFileName`, `ProcessDataFile`, the server's `ReSendMsg`, `OnStop`: not called.
- Reuse of a connection slot: `ClientConnectManager::ClientExit` resets the wrong pointers; one connection lifetime is modelled.
- Sockets, epoll, signals, daemons, shared-memory attachment, real time, logging, INI files.
- `SemLock`, `GetDateBlockNum`, and attaching to a ring that exists already.
- Messages to the persistence server about exchanges, bindings and subscribers, and replies to requests other than publications.
- Failing sends of the connect server: the client would be dropped in mid-round.
- Messages.PackPublish: leaves out a body whose 16-bit pack length wraps round and then seems to fit, because the source writes past its buffer there.
- Messages.SerializeDurableToString: leaves out the same bodies, for the same reason.
- Producers.Producer.PuslishMessage: leaves out the same bodies, for the same reason.
- Durability.RecoveryIsWhatTheBrokerHas: leaves out a durable queue that is deleted and created again under the same name after its log was written to, because old messages may still be pending.
- ClientAck level byte: ignored, as the code ignores it.
- PersistenceServers.PersistenceServer.OnPublishMessage: requires the tail group's data file to exist, which `DurableLog.TailIsOnDisk` proves of every legal run; the directory operations in between are not modelled.
- Recovery.ProcessDurableMsgFile: requires that the records to be read lie inside the pages of the data file, since the source has no memory to read outside of them; entries cut off by the end of a file read as zeros.
- Producers.Producer.RecvServerAck: leaves out multi-ack mode, and a stream that is not one of acks and replies, where the source may loop for ever or read behind a pack.
- ProducerRuns.NothingLostNothingTwice: is for one connection of a producer that makes no other requests on it, since their replies would be read here and their readers would take acks; a failing socket or the client's own exit ends the run.
- Framing.ClientConnect.Receive: leaves out the wait while the ring is full.
