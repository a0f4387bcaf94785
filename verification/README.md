# The RocketMQ push-consumer engine, modelled and proved in Dafny

This project models the consumer engine of the RocketMQ C++ client under `deps/rocketmq/src`: the part that
decides which client owns which queue, which offsets may be committed and when work is retried, together with
asynchronous send, the memory streams and subscription parsing. `dafny verify dfyconfig.toml` checks all of it.

## How it is built

Where the source changes objects in place, the model is a class whose methods are proved against a function of
the old state (`PullRequest`, `RemoteBrokerOffsetStore`, `RebalancePush`, `PushConsumer`, `Sender`, `MemoryBlock`,
`MemoryOutputStream`, `MemoryInputStream`, `BigEndianReader`, `BigEndianWriter`, `PullAPIWrapper`); the source's loops are loops.
What the source promises is then proved about those functions.

Concurrency is a state machine. `QueueProtocol` splits the work on one `PullRequest` into steps that each touch
shared state once: a drop check, one method under the lock of `PullRequest`, one write of the offset table, one
post to a thread pool. `removeMessage` and the following `updateConsumeOffset` are two steps, and so are the drop
check of a pull and its use of the cache. `CommitSafety`, `StoredOrder`, `Coverage` and `CommitRaces` prove things
about every interleaving of these steps. `Cluster` puts many `PullRequest`s of one queue, of any members of the group,
over one broker offset. `OrderlyProtocol`, `OrderlySafety` and `OrderlyRaces` do for the orderly service what the former
do for the concurrent one. `PushConsumer` and `OrderlyService` hold the imperative pull loop and consume tasks, and prove that each, run alone, is a path of the
protocol.

Files, from the ground up:

- `Basics`, `OrderedMap`: options and results; least, greatest and ascending enumeration of integer keys.
- `ProcessQueue`, `ConsumeService`, `QueueProtocol`, `CommitSafety`, `StoredOrder`, `Coverage`, `Cluster`,
  `PushConsumer`, `SingleMessage`, `CommitRaces`: the process queue, concurrent consumption and offset commit.
- `OrderlyProtocol`, `OrderlySafety`, `OrderlyRaces`, `OrderlyService`: orderly consumption.
- `Allocation`, `Ownership`, `OffsetStore`, `Rebalance`, `DoRebalance`, `GroupConvergence`: queue allocation and
  rebalance, for one client and for the group.
- `AsyncSend`: asynchronous send with retry.
- `BigEndian`, `MemoryBlock`, `MemoryOutputStream`, `InputStream`: growing buffers, block reads and integer codecs.
- `Subscription`, `PullAPIWrapper`: subscription expressions, the tag filter and the broker to pull from.

## What is assumed of the environment

- A pull from offset n answers with at most 32 messages with distinct offsets in [n, nextBeginOffset); the next
  offset never moves backwards; and no message of the subscription in that range is left out. The set of all
  messages the broker will ever serve is the `stream` of a configuration.
- One-way offset commits may be lost, repeated, reordered or late. An offset query may be answered with any value
  the broker has ever held, and at any time it may come back empty: the broker has none, refuses, or does not respond
  in time. The maximum offset may be as old as the history; a pull is answered from the messages that have arrived;
  the members of a group configure the same place to start from (`Cluster`).
- An `invokeAsync` call that returns false is followed by no callback; one that returns true is followed by exactly
  one completion carrying its attempt number. User callbacks and listeners return.
- Members of a group that rebalance see the same queues and client ids, each in any order. Client ids are distinct,
  and a route has one entry per broker.

Listener verdicts, send-back answers, broker answers, clocks (expiry, time-outs) and accepted tasks are parameters.

## What the proofs show about the code

- **Drop against pull.** A pull checks the drop flag and uses the cache later, with no lock across the two. If the
  cache of a dropped queue is cleared in between, by the rebalancer or by a consume task, while messages are
  unfinished, the pull can store its next offset, or put messages that make a running task's `removeMessage` return
  one, and unfinished messages are skipped. `CommitRaces.ClearRaceHappens` is such a schedule, and
  `CommitRaces.GroupLossHappens` takes it to the broker. `CommitSafety.ClearSafeExactly` says exactly when a clear is
  safe for one client; without that race at-least-once holds for every interleaving
  (`CommitSafety.AtLeastOnceCommit`). For the group, messages that another member has finished do no harm, and every
  hazard can make the broker pass a message that nobody has finished (`Cluster.GroupHazardLoses`).
- **Starting at the end.** A refused or timed-out offset query counts as no committed offset, and then an ordinary queue
  under CONSUME_FROM_LAST_OFFSET, the default, starts at its maximum offset. So an owner can start behind messages that
  nobody has finished, and commit past them, without any race: in a fresh group (`CommitRaces.FreshGroupLoses`), with
  an offset committed from the start (`CommitRaces.TimedOutQueryLoses`), and from any state of a group
  (`Cluster.BoldStartLoses`). Histories without a hazard deliver at least once as long as no owner, but the first of a
  queue that had no committed offset, starts in this way (`Cluster.AtLeastOnceDelivery`). All of them do if and only
  if the configured place and the kind of topic do not start an owner at the end, or there is no message to skip
  (`Cluster.DeliversExactly`). As long as no owner starts so, a clear is safe for the group if and only if the messages
  it clears that nobody else has finished do not meet a pull past its drop check (`Cluster.GroupClearSafeExactly`);
  otherwise there must also be nothing unfinished (`Cluster.BoldClearSafeExactly`).
- **Orderly "no new message".** The commit after an empty pull looks only at the cache, not at the message taken by
  the orderly consumer nor at what was cleared. It is safe if and only if no taken message is unconsumed and none was
  cleared away (`OrderlySafety.PublishedSafeIff`; `OrderlyRaces.PublishRaceHappens` is a schedule where it is not).
- **Orderly drop against pull.** The orderly loop checks the drop flag only when it takes the lock. If the cache is
  cleared between a pull's drop check and its put while the loop goes on, it consumes and commits past the cleared
  messages (`OrderlyRaces.HazardHappens`, `OrderlyRaces.HazardLoses`); `OrderlyRaces.ClearSafeExactly` says exactly
  when a clear is safe, and without that race order and commits are right (`OrderlySafety.OrderlyDelivery`).
- **Orderly stranding.** A consume task gives up when it waits more than a second for the consume lock. If the holder
  is done with the queue, say because it found the cache empty, but has not released the lock, the messages put
  meanwhile are left with no task until the next pull that finds some (`OrderlyRaces.StrandingHappens`,
  `OrderlyRaces.StrandedStays`). That is the only way: `OrderlyRaces.AttendedExactly`.
- **Stored offsets go back.** `updateOffset` overwrites, so a late task can store a smaller offset after a larger one:
  `CommitRaces.GoesBackHappens` is a run from a fresh queue that stores 2 and then 0. Offsets are computed in
  ascending order (`StoredOrder.ComputedInOrder`), and they are stored in that order if and only if no two different
  ones wait to be stored at once (`StoredOrder.StoredInOrderExactly`), as when each is stored before the next is
  computed.
- **One topic can end the round.** `doRebalance` stops at the first topic that throws: a topic with no queues (a
  retry topic throws too, inside `allocate`) or with no client ids. Every topic after it keeps its old requests,
  the same objects with the same contents (`DoRebalance.DoRebalance`, `DoRebalance.LaterTopicsKeep`;
  `DoRebalance.OneTopicEndsTheRound` is a round in which this matters).
- **CONSUME_FROM_TIMESTAMP.** However often the rebalancer runs, an ordinary queue for which the broker never answers
  with a committed offset is never started in this mode (`Rebalance.NeverStarted`).
- **Last attempt.** Refused sends stop one short of `maxRetryTimes`: attempt number `maxRetryTimes`, if it is not the
  first, is made if and only if a rejected response completes the one before it (`AsyncSend.LastAttemptIff`).
- **Growth limit.** The growth formula masks with a 32-bit constant and passes an `int`, so a stream can grow exactly
  up to a limit just below 2 GiB (`MemoryOutputStream.GrowthExact`, `MemoryOutputStream.RoomExact`).
- **Copying into a small buffer.** `writeFromInputStream` ignores the result of `write`: a full 8192-byte piece that
  does not fit is lost and still counted, and a last shorter piece may fit behind the lost ones (`InputStream.Kept`,
  `InputStream.PourFixed`). All counted bytes arrive if and only if they fit (`InputStream.PourExactly`).
- **Subscriptions.** A printed tag list does not parse back if its first tag starts with a bar; the exact condition is
  `Subscription.ParseUndoesPrint`. An expression with nothing but spaces and double bars after its
  leading bars, such as `" || "`, subscribes to everything (`PullAPIWrapper.PassesEverythingExactly`).

## Model

| member | source | states |
|---|---|---|
| ProcessQueue.PullRequest.PutMessage | deps/rocketmq/src/consumer/PullRequest.cpp:58-67 | the cache gains the messages one by one, the maximum offset follows the highest, nothing else changes |
| ProcessQueue.PutAllLastWins | deps/rocketmq/src/consumer/PullRequest.cpp:58-67 | each offset put holds the last message put there, and every other entry is untouched |
| ProcessQueue.PullRequest.GetMessage | deps/rocketmq/src/consumer/PullRequest.cpp:69-76 | lists the cached messages in offset order |
| ProcessQueue.ListingSorted | deps/rocketmq/src/consumer/PullRequest.cpp:69-76 | the listing holds every cached offset once, in ascending order |
| ProcessQueue.ListingReturns | deps/rocketmq/src/consumer/PullRequest.cpp:69-76 | what is listed are the cached messages themselves |
| ProcessQueue.PullRequest.GetCacheMinOffset | deps/rocketmq/src/consumer/PullRequest.cpp:78-87 | the least cached offset, 0 for an empty cache |
| ProcessQueue.PullRequest.RemoveMessage | deps/rocketmq/src/consumer/PullRequest.cpp:107-131 | removes exactly the given offsets; returns -1 on an empty cache, else the least offset left, or one past the highest offset ever put |
| ProcessQueue.PullRequest.ClearAllMsgs | deps/rocketmq/src/consumer/PullRequest.cpp:133-141 | empties both maps if dropped, else does nothing |
| ProcessQueue.PullRequest.SetDropped | deps/rocketmq/src/consumer/PullRequest.cpp:152-167 | changes the drop flag and nothing else |
| ProcessQueue.PullRequest.SetNextOffset | deps/rocketmq/src/consumer/PullRequest.cpp:233-236 | changes the next offset and nothing else |
| ProcessQueue.PullRequest.TakeMessages | deps/rocketmq/src/consumer/PullRequest.cpp:246-256 | moves the first messages to the taken map and returns them |
| ProcessQueue.TakeLeast | deps/rocketmq/src/consumer/PullRequest.cpp:246-256 | the messages taken are the least cached offsets, in order |
| ProcessQueue.TakeMoves | deps/rocketmq/src/consumer/PullRequest.cpp:246-256 | exactly the messages returned leave the cache and join the taken map |
| ProcessQueue.TakeUnaltered | deps/rocketmq/src/consumer/PullRequest.cpp:246-256 | a message that leaves the cache is found unaltered in the taken map, and every other entry stays |
| ProcessQueue.TakeReturns | deps/rocketmq/src/consumer/PullRequest.cpp:246-256 | what is returned are the cached messages themselves |
| ProcessQueue.PullRequest.MakeMessageToConsumeAgain | deps/rocketmq/src/consumer/PullRequest.cpp:258-264 | puts messages back into the cache and out of the taken map |
| ProcessQueue.PullRequest.CommitTaken | deps/rocketmq/src/consumer/PullRequest.cpp:266-275 | if anything is taken, the offset returned is one past a taken message and every taken offset is below it; -1 if nothing is taken; the taken map is emptied and nothing else changes |
| ConsumeService.SendBackLoop | deps/rocketmq/src/consumer/ConsumeMessageConcurrentlyService.cpp:226-268 | nothing is sent back after success; after failure the local retries are the refused messages, each once, in batch order and with one more reconsume |
| ConsumeService.RetryInOrder | deps/rocketmq/src/consumer/ConsumeMessageConcurrentlyService.cpp:247-268 | there are as many retries as refused send-backs; a refused message is retried behind those refused before it, the same but for one more reconsume |
| ConsumeService.AcceptedExactly | deps/rocketmq/src/consumer/ConsumeMessageConcurrentlyService.cpp:226-268 | an offset counts as done exactly when the listener consumed its batch or the broker took a message with it back |
| ConsumeService.EraseRetried | deps/rocketmq/src/consumer/ConsumeMessageConcurrentlyService.cpp:273-290 | erases exactly the messages whose offset is among the retries |
| ConsumeService.SettleSplits | deps/rocketmq/src/consumer/ConsumeMessageConcurrentlyService.cpp:226-290 | what is removed and what is retried are disjoint, together the whole batch, and everything removed was consumed or sent back |
| ConsumeService.RetriedExactly | deps/rocketmq/src/consumer/ConsumeMessageConcurrentlyService.cpp:247-268 | a message of a failed batch is retried if and only if its send-back failed |
| ConsumeService.SettleAndRemove | deps/rocketmq/src/consumer/ConsumeMessageConcurrentlyService.cpp:226-292 | the tail of one consume task: send back, erase, remove, on the real object |
| CommitSafety.CommitSafe | deps/rocketmq/src/consumer/ConsumeMessageConcurrentlyService.cpp:226-304 | in every interleaving free of the drop race, every offset stored or about to be stored has every message below it consumed or sent back, and none of the stream was skipped |
| CommitSafety.AtLeastOnceCommit | deps/rocketmq/src/consumer/DefaultMQPushConsumerImpl.cpp:697-748 | the same for every interleaving in which no clear falls between a pull's drop check and its use of the cache |
| CommitSafety.ClearSafeExactly | deps/rocketmq/src/consumer/Rebalance.cpp:490-507 | any clear of a dropped request, by the rebalancer or by a consume task, is safe in every continuation if and only if unfinished messages do not meet a pull past its drop check |
| CommitSafety.HazardLoses | deps/rocketmq/src/consumer/DefaultMQPushConsumerImpl.cpp:698-748 | from every hazard some continuation stores an offset past an unfinished message |
| CommitSafety.DropFence | deps/rocketmq/src/consumer/PullRequest.cpp:107-141 | after a drop and clear, removeMessage returns -1 to every running task, and only values computed before can still be stored |
| StoredOrder.ComputedInOrder | deps/rocketmq/src/consumer/PullRequest.cpp:107-131 | in every run, an offset computed by removeMessage or by an empty pull is at least every offset stored or waiting to be stored |
| StoredOrder.DrainsExactly | deps/rocketmq/src/consumer/OffsetStore.cpp:227-230 | from a state whose stored offsets are in order, every way to store the waiting ones keeps the order if and only if they are all equal |
| StoredOrder.StoredInOrderExactly | deps/rocketmq/src/consumer/OffsetStore.cpp:227-230 | along any run, stored offsets never decrease, however the waiting ones are then stored, if and only if no two different ones wait at once |
| Coverage.NothingStranded | deps/rocketmq/src/consumer/ConsumeMessageConcurrentlyService.cpp:66-113 | while live, the cached offsets are exactly those held by tasks, no two tasks share one, and everything unfinished is held |
| Coverage.DrainedMeansDone | deps/rocketmq/src/consumer/ConsumeMessageConcurrentlyService.cpp:273-304 | when all tasks have come to rest everything put is done and the cache is empty |
| Coverage.FlowControl | deps/rocketmq/src/consumer/DefaultMQPushConsumerImpl.cpp:573-660 | at most one pull is outstanding, exactly one while the queue is not dropped and pulling runs, and the cache never exceeds m_maxMsgCacheSize + 32 |
| CommitRaces.ClearRaceHappens | deps/rocketmq/src/consumer/DefaultMQPushConsumerImpl.cpp:716-748 | a reachable schedule in which a dropped queue stores an offset past an unconsumed message |
| CommitRaces.GroupLossHappens | deps/rocketmq/src/consumer/Rebalance.cpp:490-507 | a run of a group of one client, with no bold start, after which the broker holds an offset above a message nobody has finished |
| CommitRaces.FreshGroupLoses | deps/rocketmq/src/consumer/Rebalance.cpp:553-588 | a history of a fresh group with the default place, free of hazards, after which the broker holds an offset above a message nobody has finished |
| CommitRaces.TimedOutQueryLoses | deps/rocketmq/src/consumer/OffsetStore.cpp:248-259 | the same with an offset committed from the start: an offset query that comes back empty is enough |
| CommitRaces.GoesBackHappens | deps/rocketmq/src/consumer/OffsetStore.cpp:227-230 | a reachable state of a fresh queue with two messages whose stored offsets were 2 and then 0 |
| CommitRaces.StoredOffsetGoesBack | deps/rocketmq/src/consumer/OffsetStore.cpp:227-230 | whenever two settled tasks hold the whole cache, some schedule stores a smaller offset after a larger one |
| Cluster.AtLeastOnceDelivery | deps/rocketmq/src/consumer/OffsetStore.cpp:227-290 | over every history of owners, late writes and lost or stale commits that passes through no hazard and in which no owner, but the first of a queue that had no committed offset, starts at the end of the queue because its offset query came back empty, everything from the group's first offset up to any offset the broker holds or a member starts from was finished by some member |
| Cluster.DeliversExactly | deps/rocketmq/src/consumer/Rebalance.cpp:553-634 | every history without a hazard delivers if and only if an owner whose offset query comes back empty does not start at the end, or no message is left to skip: none from the offset committed before, or, without one, none that arrives |
| Cluster.BoldStartLoses | deps/rocketmq/src/consumer/Rebalance.cpp:571-582 | where it does, any unfinished message of a group that has an owner or a committed offset can be skipped for good, without a hazard |
| Cluster.BoldStartHappens | deps/rocketmq/src/consumer/Rebalance.cpp:571-582 | the same as a run from the empty group, with or without a committed offset |
| Cluster.GroupHazardLoses | deps/rocketmq/src/consumer/Rebalance.cpp:640-654 | from every hazard some continuation makes the broker hold an offset above a message no member has finished |
| Cluster.GroupClearSafeExactly | deps/rocketmq/src/consumer/Rebalance.cpp:490-507 | after a clear the broker never passes an unfinished message, as long as no other member gets into a hazard and no owner starts at the end because its query came back empty, if and only if the cleared messages that no other member finished do not meet a pull past its drop check |
| Cluster.BoldClearSafeExactly | deps/rocketmq/src/consumer/Rebalance.cpp:490-507 | with such starts allowed, it never does if and only if, in addition, they cannot happen or nothing is unfinished |
| Cluster.AcquireReads | deps/rocketmq/src/consumer/OffsetStore.cpp:232-265 | an acquisition in the group leaves the client's entry and starts the request where the offset store's read says |
| Cluster.LocalStores | deps/rocketmq/src/consumer/OffsetStore.cpp:227-230 | a value stored in the group is the one that updateOffset puts into the client's table |
| Cluster.PersistSends | deps/rocketmq/src/consumer/OffsetStore.cpp:267-290 | a commit request carries the value that persist sends, and removeOffset forgets the entry |
| PushConsumer.PushConsumer.UpdateConsumeOffset | deps/rocketmq/src/consumer/DefaultMQPushConsumerImpl.cpp:536-542 | a negative offset is not stored, any other overwrites the entry |
| PushConsumer.PushConsumer.ProducePullMsgTask | deps/rocketmq/src/consumer/DefaultMQPushConsumerImpl.cpp:596-617 | posts one pull task if and only if the request is not dropped and the service runs |
| PushConsumer.PushConsumer.ProducePullMsgTaskLater | deps/rocketmq/src/consumer/DefaultMQPushConsumerImpl.cpp:573-594 | sets one pull timer under the same condition |
| PushConsumer.PushConsumer.SubmitConsumeRequest | deps/rocketmq/src/consumer/ConsumeMessageConcurrentlyService.cpp:66-84 | posts the batch unless the request is dropped or the service stopped |
| PushConsumer.PushConsumer.SubmitConsumeRequestLater | deps/rocketmq/src/consumer/ConsumeMessageConcurrentlyService.cpp:86-113 | the same on the timer, and never for an empty batch |
| PushConsumer.PushConsumer.ApplyFound | deps/rocketmq/src/consumer/DefaultMQPushConsumerImpl.cpp:698-714 | the messages are cached under the new next offset, submitted, and one more pull is produced |
| PushConsumer.PushConsumer.ApplyNone | deps/rocketmq/src/consumer/DefaultMQPushConsumerImpl.cpp:716-748 | only the next offset moves; it is stored if and only if it is positive and the cache is empty |
| PushConsumer.PushConsumer.PullMessage | deps/rocketmq/src/consumer/DefaultMQPushConsumerImpl.cpp:623-777 | for each reply the effect of one whole pull on the cache, the next offset, the offset table, the tasks and the timers, OFFSET_ILLEGAL and BROKER_TIMEOUT included; when a request goes to the broker, and the next offset, batch size and stored offset it carries |
| PushConsumer.PushConsumer.ConsumeRequest | deps/rocketmq/src/consumer/ConsumeMessageConcurrentlyService.cpp:142-305 | the effect of one whole consume task: what leaves the cache, which offset is stored and which batch goes on the timer |
| PushConsumer.UninterruptedPull | deps/rocketmq/src/consumer/DefaultMQPushConsumerImpl.cpp:623-777 | a pull run alone is a path of the interleaved protocol with the same view, stored offset, batch and next pull |
| PushConsumer.UninterruptedTask | deps/rocketmq/src/consumer/ConsumeMessageConcurrentlyService.cpp:142-305 | a consume task run alone is a path of the protocol with the same view, stored offset and retries |
| OrderlySafety.OrderlyDelivery | deps/rocketmq/src/consumer/ConsumeMessageOrderlyService.cpp:173-240 | in every run without a drop race: consumed offsets are a prefix of the sorted put offsets; at most one message is taken; a failed message is redelivered before any larger one; every committed value has everything below it consumed |
| OrderlySafety.CommitsNext | deps/rocketmq/src/consumer/ConsumeMessageOrderlyService.cpp:230-230 | in every run without a drop race, a commit stores exactly one past the message just consumed, unless the request was dropped and its taken message cleared |
| OrderlySafety.PublishSafeExactly | deps/rocketmq/src/consumer/DefaultMQPushConsumerImpl.cpp:716-748 | the offset computed by an empty pull is safe if and only if no taken message is unconsumed and none was cleared away |
| OrderlySafety.PublishedSafeIff | deps/rocketmq/src/consumer/DefaultMQPushConsumerImpl.cpp:716-748 | the same over whole runs |
| OrderlyRaces.PublishRaceHappens | deps/rocketmq/src/consumer/DefaultMQPushConsumerImpl.cpp:716-748 | a reachable state of a live queue in which it is not safe |
| OrderlyRaces.HazardLoses | deps/rocketmq/src/consumer/ConsumeMessageOrderlyService.cpp:173-232 | from every orderly drop race some continuation commits an offset past a cleared message |
| OrderlyRaces.HazardHappens | deps/rocketmq/src/consumer/DefaultMQPushConsumerImpl.cpp:698-714 | such a race is reachable from a fresh queue |
| OrderlyRaces.ClearSafeExactly | deps/rocketmq/src/consumer/PullRequest.cpp:133-141 | everything stored after a clear of a dropped orderly request is safe in every continuation if and only if the clear does not meet a pull past its drop check that will store an offset with something unfinished, or put messages for a holder that goes on with more than its message unfinished |
| OrderlyRaces.AttendedExactly | deps/rocketmq/src/consumer/ConsumeMessageOrderlyService.cpp:138-264 | over a run, cached messages of a live queue always have a working lock holder, a waiting task or a pull about to post one, if and only if no last waiting task gives up while the holder is leaving with messages cached |
| OrderlyRaces.StrandingHappens | deps/rocketmq/src/consumer/ConsumeMessageOrderlyService.cpp:145-155 | a reachable live queue with a cached message and nobody to consume it |
| OrderlyRaces.StrandedStays | deps/rocketmq/src/consumer/ConsumeMessageOrderlyService.cpp:110-155 | nothing but a pull that finds messages, a drop or a shutdown ends that |
| OrderlySafety.DropFence | deps/rocketmq/src/consumer/PullRequest.cpp:133-141 | after a drop and clear, and once the pull is past the cache, commit() returns -1, no run commits another offset, and a pull stores at most the offset it had computed |
| OrderlyService.ConsumeRequest | deps/rocketmq/src/consumer/ConsumeMessageOrderlyService.cpp:138-247 | nothing without the consume lock; a dropped request is emptied; a queue that is not locked is tried again; else the loop. A live queue is never left with cached messages and no new task, unless shutdown was requested |
| OrderlyService.ConsumeLoop | deps/rocketmq/src/consumer/ConsumeMessageOrderlyService.cpp:173-240 | the loop is the sequence of turns until one ends it; the table holds the last value stored |
| OrderlyService.LoopEnds | deps/rocketmq/src/consumer/ConsumeMessageOrderlyService.cpp:173-240 | exactly when the loop ends: after a turn with a shutdown request, when the 60 s are over, when nothing is cached, or when the listener fails; and a new task is posted exactly for the second and the last |
| OrderlyService.LoopLeaves | deps/rocketmq/src/consumer/ConsumeMessageOrderlyService.cpp:205-225 | what the loop leaves in the cache is as it was, but for the message the listener failed on, which has one more reconsume |
| OrderlyService.StoredNext | deps/rocketmq/src/consumer/ConsumeMessageOrderlyService.cpp:230-230 | for each message consumed the offset one past it is stored |
| OrderlyService.NothingSkipped | deps/rocketmq/src/consumer/ConsumeMessageOrderlyService.cpp:173-240 | offsets consumed, followed by those left, are the cached offsets in ascending order |
| OrderlyService.StoredIsConsumed | deps/rocketmq/src/consumer/ConsumeMessageOrderlyService.cpp:230-230 | every offset below a value stored by the loop was consumed |
| OrderlyService.TurnIsProtocol | deps/rocketmq/src/consumer/ConsumeMessageOrderlyService.cpp:180-232 | every turn, a late one and one that finds nothing too, is the protocol steps in view, offsets consumed and stored, tasks posted and where the holder then stands |
| OrderlyService.EntryIsProtocol | deps/rocketmq/src/consumer/ConsumeMessageOrderlyService.cpp:138-172 | so are the ways into and past the loop: no lock, a dropped request, a queue that is not locked |
| Allocation.SegmentsTile | deps/rocketmq/src/consumer/AllocateMQStrategy.h:71-90 | segments start at 0, follow one another, end at N, never increase in size and differ by at most one |
| Allocation.ArithmeticIsSegment | deps/rocketmq/src/consumer/AllocateMQStrategy.h:71-90 | the start and range branches compute the segment of the client's index |
| Allocation.FindIndex | deps/rocketmq/src/consumer/AllocateMQStrategy.h:57-64 | the first position of the client id, -1 if it is not listed |
| Allocation.Allocate | deps/rocketmq/src/consumer/AllocateMQStrategy.h:41-90 | the error cases in order; otherwise the segment of the client's first position, nothing for an unknown client |
| Allocation.CopyRange | deps/rocketmq/src/consumer/AllocateMQStrategy.h:80-90 | the copy loop yields the slice |
| Allocation.SharesConcatenate | deps/rocketmq/src/consumer/AllocateMQStrategy.h:71-90 | the shares of all clients concatenate back to the queue list |
| Allocation.ExactlyOneSegment | deps/rocketmq/src/consumer/AllocateMQStrategy.h:71-90 | each position belongs to exactly one client |
| Ownership.TopicRouteData2TopicSubscribeInfo | deps/rocketmq/src/MQClientFactory.cpp:263-278 | the queue list is built from the readable route entries |
| Ownership.ReadableBit | deps/rocketmq/src/common/PermName.cpp:22-29 | a route entry is readable exactly if the bit of value 4 is set in its permission word |
| Ownership.InSubscribeInfo | deps/rocketmq/src/MQClientFactory.cpp:263-278 | a queue is listed if and only if a readable broker serves it |
| Ownership.SubscribeInfoDistinct | deps/rocketmq/src/MQClientFactory.cpp:263-278 | one entry per broker gives a duplicate-free list |
| Ownership.QueueOrder | deps/rocketmq/src/message/MQMessageQueue.cpp:86-102 | the comparison of queues is a strict total order |
| Ownership.QueueLessExactly | deps/rocketmq/src/message/MQMessageQueue.cpp:86-102 | topics decide first, then brokers, then ids |
| Ownership.StringLessExactly | deps/rocketmq/src/message/MQMessageQueue.cpp:86-102 | behind a common prefix the string that ends or has the smaller character comes first |
| Ownership.SortUnique | deps/rocketmq/src/consumer/Rebalance.cpp:102-104 | two sorted permutations are equal, so members sort to the same list |
| Ownership.ExactlyOneOwner | deps/rocketmq/src/consumer/Rebalance.cpp:102-109 | after each member sorts and allocates on its own, every readable queue of the route has exactly one owner |
| OffsetStore.RemoteBrokerOffsetStore.UpdateOffset | deps/rocketmq/src/consumer/OffsetStore.cpp:227-230 | overwrites without comparing |
| OffsetStore.RemoteBrokerOffsetStore.ReadOffset | deps/rocketmq/src/consumer/OffsetStore.cpp:232-265 | from memory, or from the broker with the table refreshed; -1 and -2 for the two kinds of failure |
| OffsetStore.RemoteBrokerOffsetStore.Persist | deps/rocketmq/src/consumer/OffsetStore.cpp:267-282 | sends the entry if there is one |
| OffsetStore.RemoteBrokerOffsetStore.RemoveOffset | deps/rocketmq/src/consumer/OffsetStore.cpp:286-290 | removes exactly this entry |
| OffsetStore.ResumesAtCommitted | deps/rocketmq/src/consumer/Rebalance.cpp:553-634 | a queue answered with a committed offset resumes there; one whose broker's address is not known is not started; a refused or timed-out query counts as no committed offset, which starts a queue at 0, at its end or not at all, by place and kind of topic |
| OffsetStore.RetryExactly | deps/rocketmq/src/common/UtilAll.cpp:26-28 | a topic is a retry topic exactly if its first seven characters are %RETRY% |
| Rebalance.RebalancePush.RemoveUnnecessaryMessageQueue | deps/rocketmq/src/consumer/Rebalance.cpp:640-654 | the offset is sent before it is forgotten |
| Rebalance.RebalancePush.DropPhase | deps/rocketmq/src/consumer/Rebalance.cpp:482-508 | exactly the queues not allocated or expired are dropped, emptied and removed, their offsets sent and forgotten; every other request is untouched |
| Rebalance.RebalancePush.ComputePullFromWhere | deps/rocketmq/src/consumer/Rebalance.cpp:553-634 | the start offset, and the offset table: refreshed by the broker's answer, untouched for a place that is not handled |
| Rebalance.WhereExactly | deps/rocketmq/src/consumer/Rebalance.cpp:553-634 | where a pass starts a queue, for each answer of the broker, place and kind of topic: at a committed offset if there is one |
| Rebalance.RebalancePush.AddPhase | deps/rocketmq/src/consumer/Rebalance.cpp:510-533 | exactly the allocated queues without a request that have a start offset get a new one: live, empty and with that next offset; the others are kept |
| Rebalance.RebalancePush.StartPhase | deps/rocketmq/src/consumer/Rebalance.cpp:535-547 | new requests that are not accepted are dropped and removed, the rest kept |
| Rebalance.RebalancePush.UpdateRequestTableInRebalance | deps/rocketmq/src/consumer/Rebalance.cpp:461-551 | final keys; kept requests are the same untouched objects; removed ones are dropped and empty with their next offset kept; new ones are fresh, live and empty, with the next offset that the query gave, a committed one if there is one; offsets flushed; the result says whether anything changed |
| Rebalance.PassSpecification | deps/rocketmq/src/consumer/Rebalance.cpp:461-551 | the topic's keys are exactly the allocated queues held and unexpired, or given an offset and an accepted task; other topics unchanged |
| Rebalance.OffsetsSpecification | deps/rocketmq/src/consumer/Rebalance.cpp:482-533 | per queue, what a pass leaves in the offset table: the answer for a queue that was asked about, nothing for another that was dropped, else what was there |
| Rebalance.ChangesExactly | deps/rocketmq/src/consumer/Rebalance.cpp:461-551 | a pass reports a change exactly when it drops a queue or finds a start for one that was not held |
| Rebalance.HoldsAllIff | deps/rocketmq/src/consumer/Rebalance.cpp:510-547 | a pass holds its whole allocation if and only if every queue it had to add got an offset and a task |
| Rebalance.SecondPass | deps/rocketmq/src/consumer/Rebalance.cpp:482-533 | after a fully successful pass a second one reports false, drops, asks, adds and changes nothing; after any other it only retries what is missing |
| Rebalance.StartedIff | deps/rocketmq/src/consumer/Rebalance.cpp:461-551 | over any run of passes a queue that is not held comes to be held if and only if one of them gives it an offset and an accepted task |
| Rebalance.NeverStarted | deps/rocketmq/src/consumer/Rebalance.cpp:553-634 | over any run of passes an ordinary queue for which the broker never answers with a committed offset is never held under CONSUME_FROM_TIMESTAMP, and no queue under a place that is not handled |
| Rebalance.RebalancePush.PersistConsumerOffset | deps/rocketmq/src/consumer/Rebalance.cpp:152-174 | sends the offset of every live queue that has one, and nothing else |
| DoRebalance.RebalanceTopic | deps/rocketmq/src/consumer/Rebalance.cpp:60-142 | one topic: skipped without subscribe info; failing without queues, clients or a client id, and then nothing at all changes; else a pass with the client's allocation: keys, kept and dropped request objects with their contents, new ones with the next offset they start from, offsets kept and sent |
| DoRebalance.StopsBy | deps/rocketmq/src/consumer/Rebalance.cpp:72-97 | a round gets no further than a topic without queues or clients |
| DoRebalance.DoRebalance | deps/rocketmq/src/consumer/Rebalance.cpp:55-150 | the topics before the first that throws are handled, and no other; which requests are then the same untouched objects, dropped and emptied, or new; which offsets are kept and which were sent |
| DoRebalance.RoundPerTopic | deps/rocketmq/src/consumer/Rebalance.cpp:55-150 | each topic reached gets what its own pass would give: keys, dropped requests, offsets kept and sent; every other topic's requests and offsets are left alone |
| DoRebalance.LaterTopicsKeep | deps/rocketmq/src/consumer/Rebalance.cpp:55-150 | every topic after the first that throws keeps its queues, requests and offsets |
| DoRebalance.OneTopicEndsTheRound | deps/rocketmq/src/consumer/Rebalance.cpp:72-80 | a round whose first topic has no queues, in which the second keeps a request that its own pass would have dropped |
| GroupConvergence.NoQueueHeldTwice | deps/rocketmq/src/consumer/Rebalance.cpp:55-150 | once every member has run a pass on the same view, even a failing one, no queue is held by two, in any order and from any tables |
| GroupConvergence.ConvergesExactly | deps/rocketmq/src/consumer/Rebalance.cpp:461-551 | the members together cover the topic's queues if and only if each one's last pass was fully successful |
| AsyncSend.Sender.SendMessageAsync | deps/rocketmq/src/MQClientAPIImpl.cpp:408-453 | the attempts made, each after the first below maxRetryTimes and with time left, as many as that allows; the one pending; the notice or exception when all are refused |
| AsyncSend.PostExactly | deps/rocketmq/src/MQClientAPIImpl.cpp:408-453 | for any replies, a refused call is followed by another if and only if the next number is below maxRetryTimes and time is left since the first; then the last is pending, or its refusal is told |
| AsyncSend.Sender.OperationComplete | deps/rocketmq/src/common/AsyncCallbackWrap.cpp:59-129 | for each way an attempt can end, the notice and free, or the next attempts within the time left |
| AsyncSend.CompleteExactly | deps/rocketmq/src/common/AsyncCallbackWrap.cpp:59-129 | a completion either posts the next attempt with the time the rejected response left, or ends the send with the one notice it calls for |
| AsyncSend.NotifiedExactlyOnce | deps/rocketmq/src/common/AsyncCallbackWrap.cpp:44-129 | in every run one notice, a success exactly for a processed response, then one free for an auto-delete callback; nothing before |
| AsyncSend.TerminatesWithinBudget | deps/rocketmq/src/common/AsyncCallbackWrap.cpp:94-118 | attempt numbers strictly increase from 1 and stay within max(1, maxRetryTimes), which bounds calls and completions |
| AsyncSend.RetriedIff | deps/rocketmq/src/common/AsyncCallbackWrap.cpp:94-118 | a rejected response is retried if and only if the attempt was below maxRetryTimes |
| AsyncSend.LaterCallsBelowMax | deps/rocketmq/src/MQClientAPIImpl.cpp:423-441 | whatever the replies, a retry loop calls only attempt numbers below maxRetryTimes after its first call |
| AsyncSend.LastAttemptIff | deps/rocketmq/src/MQClientAPIImpl.cpp:423-441 | in every run, attempt maxRetryTimes, if it is not the first, is made if and only if a rejected response completes the attempt before it |
| AsyncSend.RefusalsStopOneShort | deps/rocketmq/src/MQClientAPIImpl.cpp:423-441 | when every attempt is refused with time left, the attempt given and then each number below maxRetryTimes are called in turn, and the last is not |
| BigEndian.ReadBigEndian | deps/rocketmq/src/common/big_endian.h:20-28 | the value of the bytes whatever the sign of the first: its extension is shifted out |
| BigEndian.WriteBigEndian | deps/rocketmq/src/common/big_endian.h:30-37 | writes the big-endian bytes in place and leaves the rest of the buffer alone |
| BigEndian.MostSignificantFirst | deps/rocketmq/src/common/big_endian.h:20-37 | the first byte counts for the most |
| BigEndian.FourBytesSigned | deps/rocketmq/src/common/big_endian.h:20-37 | four bytes hold the range and the two's complement of an int |
| BigEndian.BytesOfValue | deps/rocketmq/src/common/big_endian.h:20-37 | writing what was read gives the same bytes |
| BigEndian.DecodeEncode | deps/rocketmq/src/common/big_endian.h:20-37 | reading what was written gives the same value, signed or unsigned, of any width |
| BigEndian.BigEndianReader.Read | deps/rocketmq/src/common/big_endian.cpp:29-36 | takes the next bytes if they are there, else leaves the cursor alone |
| BigEndian.BigEndianWriter.Write | deps/rocketmq/src/common/big_endian.cpp:71-78 | appends at the cursor if there is room, else changes nothing |
| BigEndian.BigEndianWriter.WriteBytes | deps/rocketmq/src/common/big_endian.cpp:63-69 | the same for raw bytes |
| BigEndian.BigEndianWriter.Skip | deps/rocketmq/src/common/big_endian.cpp:56-61 | moves the cursor only within the buffer |
| BigEndian.RoundTrip | deps/rocketmq/src/common/big_endian.cpp:29-78 | any list of values reads back the same, in order, with the cursor just behind them |
| BigEndian.WriteItems | deps/rocketmq/src/common/big_endian.cpp:71-78 | a list of writes puts the encodings one after another, up to the first that does not fit |
| BigEndian.ReadItems | deps/rocketmq/src/common/big_endian.cpp:29-36 | a list of reads gives what the bytes decode to, up to the first that finds too little |
| BigEndian.WriteThenRead | deps/rocketmq/src/common/big_endian.cpp:29-78 | on the cursors themselves: as many values as fit come back, in order, and the reader ends where the writer ended |
| MemoryBlock.MemoryBlock.SetSize | deps/rocketmq/src/common/dataBlock.cpp:96-122 | the new size; earlier bytes kept; new ones zero on request |
| MemoryBlock.MemoryBlock.EnsureSize | deps/rocketmq/src/common/dataBlock.cpp:124-127 | never shrinks, keeps all bytes |
| MemoryBlock.MemoryBlock.Append | deps/rocketmq/src/common/dataBlock.cpp:134-140 | the old contents followed by the new bytes |
| MemoryBlock.MemoryBlock.Insert | deps/rocketmq/src/common/dataBlock.cpp:149-160 | the bytes stand at the position, or at the end if it is past it |
| MemoryBlock.MemoryBlock.RemoveSection | deps/rocketmq/src/common/dataBlock.cpp:162-170 | the section is gone and the tail follows; a start past the block makes it grow to there |
| MemoryBlock.RemoveUndoesInsert | deps/rocketmq/src/common/dataBlock.cpp:149-170 | removing what was inserted gives the block back |
| MemoryBlock.InsertUndoesRemove | deps/rocketmq/src/common/dataBlock.cpp:149-170 | inserting what was removed gives the block back |
| MemoryOutputStream.GrowthExact | deps/rocketmq/src/common/MemoryOutputStream.cpp:62-64 | in the source's integer widths the new capacity is enough if and only if the growth stays within an int; then it is a multiple of 32 above what is needed |
| MemoryOutputStream.GrowthAmount | deps/rocketmq/src/common/MemoryOutputStream.cpp:62-64 | it is above what is needed by half of that, at most a megabyte, and at most 32 bytes more |
| MemoryOutputStream.RoomExact | deps/rocketmq/src/common/MemoryOutputStream.cpp:57-67 | the room that writes are asked to have is exactly what leaves the block long enough for the bytes |
| MemoryOutputStream.MemoryOutputStream.constructor | deps/rocketmq/src/common/MemoryOutputStream.cpp:20-23 | an empty text on the stream's own block |
| MemoryOutputStream.MemoryOutputStream.OnBlock | deps/rocketmq/src/common/MemoryOutputStream.cpp:25-29 | the given block's contents with the cursor at their end, or an empty text |
| MemoryOutputStream.MemoryOutputStream.OnBuffer | deps/rocketmq/src/common/MemoryOutputStream.cpp:31-32 | an empty text in a fixed buffer |
| MemoryOutputStream.MemoryOutputStream.PrepareToWrite | deps/rocketmq/src/common/MemoryOutputStream.cpp:57-78 | where to write, the moved position and size; reallocation keeps earlier bytes |
| MemoryOutputStream.MemoryOutputStream.Write | deps/rocketmq/src/common/MemoryOutputStream.cpp:80-90 | overwrites at the cursor, or fails without effect on a full fixed buffer |
| MemoryOutputStream.MemoryOutputStream.WriteRepeatedByte | deps/rocketmq/src/common/MemoryOutputStream.cpp:92-102 | the same for a repeated byte |
| MemoryOutputStream.MemoryOutputStream.SetPosition | deps/rocketmq/src/common/MemoryOutputStream.cpp:118-130 | clamps below at 0, refuses to pass the end |
| MemoryOutputStream.MemoryOutputStream.Reset | deps/rocketmq/src/common/MemoryOutputStream.cpp:52-55 | an empty text |
| MemoryOutputStream.MemoryOutputStream.Preallocate | deps/rocketmq/src/common/MemoryOutputStream.cpp:47-50 | the text is unchanged; a block is at least one byte larger than asked for, as far as that number survives the cast to an int |
| MemoryOutputStream.MemoryOutputStream.TrimExternalBlockSize | deps/rocketmq/src/common/MemoryOutputStream.cpp:42-45 | a given block becomes exactly what was written |
| MemoryOutputStream.MemoryOutputStream.PerformAll | deps/rocketmq/src/common/MemoryOutputStream.cpp:57-130 | any run of calls, on a block or a fixed buffer, has the effect of a plain byte sequence with a cursor |
| MemoryOutputStream.WriteTwice | deps/rocketmq/src/common/MemoryOutputStream.cpp:80-90 | two writes in a row are one write of both pieces |
| MemoryOutputStream.BytesStay | deps/rocketmq/src/common/MemoryOutputStream.cpp:57-130 | over any run the text never shrinks and a byte stays until a call that fits writes over it |
| InputStream.MemoryInputStream.Read | deps/rocketmq/src/common/MemoryInputStream.cpp:49-57 | copies the next bytes that are there and moves past them; how many are there is first narrowed to an int |
| InputStream.MemoryInputStream.SetPosition | deps/rocketmq/src/common/MemoryInputStream.cpp:63-70 | clamps into the data |
| InputStream.MemoryInputStream.IsExhausted | deps/rocketmq/src/common/MemoryInputStream.cpp:59-61 | true if and only if nothing is left |
| InputStream.MemoryInputStream.ReadInteger | deps/rocketmq/src/common/InputStream.cpp:42-74 | the decoded value, or 0 with the rest used up when it is too short |
| InputStream.WriteInteger | deps/rocketmq/src/common/OutputStream.cpp:44-63 | writes the value's bytes at the cursor, or nothing when a fixed buffer is too small |
| InputStream.CopyChunks | deps/rocketmq/src/common/OutputStream.cpp:83-103 | takes and counts the next n bytes, or all there are if they are fewer or n is negative, and offers them in pieces of 8192, ignoring what is lost |
| InputStream.PourGrowing | deps/rocketmq/src/common/OutputStream.cpp:83-103 | into a block the pieces are one write of all the bytes |
| InputStream.PourFixed | deps/rocketmq/src/common/OutputStream.cpp:83-103 | into a fixed buffer exactly the pieces that fit arrive, a last shorter one even behind lost ones |
| InputStream.KeptClosed | deps/rocketmq/src/common/OutputStream.cpp:83-103 | they are as many whole pieces of 8192 bytes from the front as fit, and the shorter last one if it fits behind them |
| InputStream.PourExactly | deps/rocketmq/src/common/OutputStream.cpp:83-103 | all counted bytes arrive if and only if they fit |
| InputStream.WriteFromInputStream | deps/rocketmq/src/common/MemoryOutputStream.cpp:132-146 | the same count and the same bytes with preallocation |
| InputStream.ReadIntoMemoryBlock | deps/rocketmq/src/common/InputStream.cpp:94-97 | the block is its old contents and the next min(n, available) source bytes, all of them for a negative n; the source moves by that count, which is returned |
| InputStream.StreamRoundTrip | deps/rocketmq/src/common/OutputStream.cpp:44-63 | values written to a stream read back the same with nothing left |
| InputStream.WriteIntegers | deps/rocketmq/src/common/OutputStream.cpp:44-63 | a list of writes leaves the text with each value offered in turn |
| InputStream.ReadIntegers | deps/rocketmq/src/common/InputStream.cpp:42-74 | a list of reads gives what the bytes decode to if there is enough, else some zeros |
| InputStream.WriteThenRead | deps/rocketmq/src/common/OutputStream.cpp:44-63 | on the streams themselves: the values written come back in order and nothing is left |
| Subscription.TrimFacts | deps/rocketmq/src/common/UtilAll.cpp:34-37 | trimming leaves no outer spaces, keeps a trimmed string, and ignores an added outer space |
| Subscription.TrimSpaces | deps/rocketmq/src/common/UtilAll.cpp:34-37 | the two erase calls compute the trimmed string |
| Subscription.FindFirst | deps/rocketmq/src/common/UtilAll.cpp:153-177 | the separator found is the first; none is found only if there is none |
| Subscription.Split | deps/rocketmq/src/common/UtilAll.cpp:128-177 | the loop terminates and yields the non-empty pieces in order; an empty text has none |
| Subscription.BuildSubscriptionData | deps/rocketmq/src/common/FilterAPI.h:29-56 | the tag list, empty for everything, or the split error |
| Subscription.ParsedTagsAreClean | deps/rocketmq/src/common/FilterAPI.h:29-56 | every tag of every parsed subscription is non-empty, trimmed and free of double bars |
| Subscription.ParsePrinted | deps/rocketmq/src/common/FilterAPI.h:37-52 | parsing a printed list of pieces without double bars gives them trimmed, without the blank ones |
| Subscription.ParseUndoesPrint | deps/rocketmq/src/common/FilterAPI.h:29-56 | a printed list parses back to itself if and only if its tags are clean, the first does not start with a bar and it is not just "*" |
| Subscription.EverythingExactly | deps/rocketmq/src/common/FilterAPI.h:29-56 | the tag list is empty if and only if the expression is empty, "*", or has something after its leading bars, but nothing except spaces and double bars |
| Subscription.RefusedExactly | deps/rocketmq/src/common/FilterAPI.h:37-41 | an expression is refused exactly if it is not empty and consists of bars |
| PullAPIWrapper.PullAPIWrapper.RecalculatePullFromWhichNode | deps/rocketmq/src/consumer/PullAPIWrapper.cpp:39-45 | the broker last suggested for the queue, the master if there was none |
| PullAPIWrapper.PullAPIWrapper.ProcessPullResult | deps/rocketmq/src/consumer/PullAPIWrapper.cpp:47-83 | an error without a result; else the suggested broker is remembered for the queue alone, found messages are filtered and the rest is passed on |
| PullAPIWrapper.FilterExact | deps/rocketmq/src/consumer/PullAPIWrapper.cpp:60-79 | the filter keeps, in order, exactly the messages whose tag is listed |
| PullAPIWrapper.PassesEverythingExactly | deps/rocketmq/src/consumer/PullAPIWrapper.cpp:66-78 | a subscription filters nothing away if and only if its expression is empty, "*", or has something after its leading bars, but nothing except spaces and double bars |
| PullAPIWrapper.SubscribedExactly | deps/rocketmq/src/consumer/PullAPIWrapper.cpp:60-79 | printing, parsing and filtering together select exactly the messages with one of the tags |

## Left out

- Networking, threads, timers, thread pools and locks themselves: they are steps or parameters, with the contracts above.
- The node layer (`lib/`, `src/`), the C API, logging, trace hooks, namespaces, signatures, statistics and version numbers: they add only easy members.
- BROADCASTING mode, where failed messages are dropped by design.
- OFFSET_ILLEGAL, BROKER_TIMEOUT and `resetOffset` in the interleaved protocol: they move the baseline of the commit property. `PushConsumer.PullMessage` does cover the first two.
- The asynchronous pull callback, which is one object per queue shared by successive `PullRequest`s; the protocol follows the synchronous `pullMessage`.
- In the interleaved protocol `setNextOffset` and `putMessage` are one step, as only the single outstanding pull reads the next offset; and the send-backs of one batch are one step with its listener call.
- In the orderly protocol `commit()` and the store of its value are one step, as only the lock holder does them, and so are putting a failed message back and setting its timer; lock leases, `lockAll`, `unlockAll` and `unlock` depend on clocks and the broker and are a parameter. Listener exceptions in orderly mode are not modelled.
- In the interleaved protocols the queue-lock check that starts `pullMessage` only delays a pull, and the stored offset that a pull request carries to the broker is one more persist of `Cluster`; `PushConsumer.PullMessage` covers both.
- Trace mode, which calls the listener message by message and fails the whole batch if one fails, appears only through the verdict of the batch.
- `resetRetryTopic` and the topic of a message: they do not affect offsets.
- Local file offset store, JSON, zlib, HTTP and name-server code: I/O or opaque libraries.
- Allocation with duplicate client ids: only the first match is used, and ownership is stated for distinct ids.
- The hash codes of tags kept beside the tag list: the client-side filter does not use them.
- `copyFrom`, `copyTo`, `fillWith`, `replaceWith` and copying of blocks; float and double values, which reuse the integer code; `skipNextBytes`.
- Sizes of `MemoryBlock` are unbounded integers; where the stream computes a size the source's widths are modelled (`MemoryOutputStream.GrowthExact`). Arguments that alias the stream's own storage are not modelled, as sources are values.
- MemoryOutputStream.MemoryOutputStream.PrepareToWrite: requires room in the block, because without it the source would write past the block's end; `MemoryOutputStream.RoomExact` shows that nothing else is excluded.
- MemoryOutputStream.MemoryOutputStream.Write: the same room.
- MemoryOutputStream.MemoryOutputStream.WriteRepeatedByte: the same room.
- MemoryOutputStream.MemoryOutputStream.PerformAll: the same room, on a block, for every call.
- InputStream.WriteInteger: the same room.
- InputStream.WriteIntegers: the same room, on a block, for all the values.
- InputStream.WriteThenRead: the same room for an empty stream.
- InputStream.CopyChunks: the same room for the bytes moved into a block.
- InputStream.WriteFromInputStream: block sizes that stay within an int, because the preallocation computes them in one.
- InputStream.ReadIntoMemoryBlock: block sizes that stay within an int, because the source's block size is one.
- InputStream.ReadIntegers: at most 2^31 - 1 bytes left, because beyond that the narrowed length can hide bytes that are there; `InputStream.MemoryInputStream.ReadInteger` says what each read then does.
- Subscription.Split: requires a non-empty separator for a non-empty text, because with an empty one the source's loop does not end.
