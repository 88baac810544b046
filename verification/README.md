# event_base delivery, verified in Dafny

This project models how `event_base` moves a message: from a topic queue through
the topic's dispatcher into a worker's inbox, through one or more handler runs,
and on to completion, a retry, the delay store or the dead-letter topic. Around
that core it models what the protocol rests on: the router's tables and the
dispatchers' cache of them, the in-memory queue and the Redis stream behind the
claim/ack/nack contract, the delay store in memory and on Redis, the file-backed
write-ahead log, and the worker registry with its heartbeats and broadcasts.

## How it is organised

| file | what it holds |
|---|---|
| `Messages` | the message envelope, handler answers, name rules, constants |
| `Dispatch` | the dispatcher's decision about one message, the relay cap, the rotation |
| `Relays` | a message nobody answers to, passed on by dispatchers, receive loops and workers in any order |
| `WorkerProcess` | one run of a message through a worker, as a function and as the imperative `process_msg` |
| `Delivery` | the protocol as a state machine; a step is what happens between two awaits |
| `DeliveryInvariant`, `DeliverySteps`, `DeliveryRuns` | its invariant, that every step keeps it, and what follows for every run |
| `DeliveryEffort` | a measure that bounds the work a message can cause |
| `DeliveryPaths` | where each step takes a message, how it comes to be completed, what becomes of its payload |
| `DeliveryStall` | a full topic queue whose dispatchers all wait for room on it |
| `Queue`, `Recv`, `TopicDispatcher` | the in-memory queue, one batch of the router's receive loop, one pass of the dispatch loop |
| `RouterTables`, `ConsumerRouter` | the tables as values with their consistency, and the object that edits them map by map |
| `CreateRace` | the steps of creating a worker interleaved with deleting its topic |
| `LockOrder` | the router's locks, taken in two different orders |
| `CacheCoherence` | the dispatcher's cached worker list against concurrent creates and deletes |
| `DelayStore`, `DelayRace` | the delay store with one caller (memory and Redis), and on Redis with any number of callers |
| `PersistentWal` | the file-backed log under crashes, its record ids, and replay after status updates |
| `RedisStream` | one Redis stream and its consumer group, one command per step |
| `Registry`, `Heartbeats` | the persisted worker registry and the timing of heartbeats and sweeps |
| `TopicRouter` | the three ways `send` takes, and the broadcast fan-out |
| `MapSum` | the multiset union over a map, used to count messages and claims |

Machines are written as `Enabled`/`Next` over explicit states. A run is a sequence
of states and steps from an initial state; every main result is about all runs, in
any interleaving. Objects the source updates in place are classes, and each of
their methods is tied to a function of the old state about which the properties
are proved.

Modelling choices that hold throughout: UUIDs are fresh tokens; handlers and
middleware are arbitrary (the handler's answer and the new payload are
parameters of the step); the clock is a parameter; a blocking send is a step
that needs room; a send or status report that can fail has a failing step too.
`attempts`, `consumed_count` and record ids are unbounded here, 32- and 64-bit
there; the dispatcher's `usize` cursor and the millisecond casts are modelled
with their widths.

## Properties that turned out conditional

Each of these is stated with the condition under which it holds and with a lemma
that shows the condition is needed.

- A current cache is coherent except between an edit that concerns the topic and its
  generation bump (`CacheIsCoherent`). Within that window it is wrong after every edit
  by which a cached worker goes and after every create on the topic
  (`RemovalLeavesAGhostUntilTheBump`, `PushIsMissedUntilTheBump`).
- `create_worker` drops the topic lock between looking the topic up and registering
  the worker. A topic that is not deleted in between stays in order, with at most one
  dispatcher per registration and exactly one once it has workers
  (`TopicsStayInOrder`). One that is deleted can end with an indexed worker on no list
  (`OvertakenCreateStrandsItsWorker`). If the create had not started its dispatcher
  yet, the old queue can end with a second dispatcher
  (`OvertakenCreateStartsAnother`), and the topic, once it is registered again, with
  none (`ReregisteredTopicIsUnserved`).
- A dispatcher gives a claim back, or relays it, by a blocking send onto the queue it
  alone reads. On a full queue it waits for itself: the topic stands still exactly
  until a new reader comes or a relay fails (`WedgedExactlyUntilFreed`,
  `WedgeIsReachable`).
- `del_worker` locks the worker index before the topics, `register_worker`,
  `del_workers` and `get_workers` the topics before the index. Calls can stop one
  another for good exactly if both kinds are made under the router's read guard
  (`LivelyExactlyUnlessOrdersMix`). Within the crate workers are created and deleted
  under the write guard only.
- On Redis a scheduled id can be left in the index without a payload exactly when a
  `schedule` overtakes an unfinished deletion of the same id
  (`IndexedRecordHasItsPayload`, `OvertakenDeletionOrphans`); an id scheduled once,
  and not removed before that, is safe (`ScheduledOnceIsNotCrossed`).
- Every delivery is the record last scheduled under its id and is due exactly as long
  as no `schedule` of the id overtakes a fetch: a fetch that has the id in its list
  or claim with a clock before the new time, or that already holds an older record
  (`DeliveriesAreCurrentAndDue`, `OvertakenFetchDeliversWrongly`). A delayed retry
  reschedules its message, so this is reached in ordinary use; a message scheduled
  once is safe.
- The Redis score is a 64-bit cast. A record is never a millisecond early exactly if
  its delivery time is below 2^63 ms (`NeverEarlyExactlyInRange`): from there to
  2^64 ms it fires at once (`BeyondTheRangeFiresAtOnce`), and every further 2^64 ms
  it fires when the time that much earlier would (`ScoresRepeat`).
- `Repeated(n)` finishes exactly if the message has been consumed fewer than `n`
  times; `Repeated(0)` never does (`RepeatedOwesItsRuns`). This is of the unbounded
  count: the 32-bit `consumed_count` comes back to 0 after 2^32 runs where overflow
  wraps, and panics there where it is checked.
- Round robin is fair across wraps of the cursor exactly if the number of workers
  divides 2^64; otherwise the first wrap puts worker 0 two picks ahead of the last
  one (`FairForeverExactlyIfTheLengthDivides`, `WrapBreaksTheRotation`).
- Opening the log gives the last completed flush in every run exactly if the file's
  extension is not `tmp` (`RecoversExactlyUnlessTmp`). With it the log is its own
  temporary file: after a crash during the write it does not open, and after one
  between write and rename it opens to the flush that was not completed
  (`TmpPathLosesTheLastFlush`).
- `cleanup_stale` reads the clock before it takes the lock: a heartbeat handled in
  between evicts its own worker (`BeatAfterTheClockWasRead`). The registry's outer
  lock keeps the heartbeat handler out of that window.
- The registry equals its persisted form only because the read guard is held
  during the save (`WithoutTheGuardAnEditIsLost`).
- Broadcast copies keep the message's own topic, so they are on the topic asked for
  only if that is the same (`CopiesStayOnTheirTopic`).

Where comments and code of the original disagree, the model follows the code:
`del_workers` on an unknown topic returns Ok and still bumps the generation,
although an error is documented; the stale timeout is described as tolerating about
six missed heartbeats, and tolerates five (`SixLostBeatsAreTooMany`); `ack` on the
in-memory queue accepts unknown claim ids, although an error is documented.

## Model

| member | source | states |
|---|---|---|
| `DeliveryRuns.StepKeepsInv` | event_base_core/src/queues/consumer_router.rs:320-443 | every step of the protocol (arrivals, dispatcher, worker, scheduler, receive loop, lifecycle) keeps the invariant: one copy of each message, its history (runs, retries, relays, target, payload) in agreement with its fields, a completed message run as often as it owed, and every agent holding what its phase says |
| `DeliveryRuns.Conservation` | event_base_core/src/queues/consumer_router.rs:320-443 | in every state of every run a message is somewhere exactly if it was submitted, and never at two positions, be it in one place or in two |
| `DeliveryPaths.PassedOnUnchanged` | event_base_core/src/queues/consumer_router.rs:364-423 | every claim, receive, send and return takes the first message of its place unchanged to one other place and moves nothing else: a nacked claim and a relay to the topic's own queue, a worker's send to the queue it is meant for, a due delay to the queue of its topic, what the receive loop could not place to the main queue; only failed calls lose it |
| `DeliveryPaths.ClaimGoesWhereItShould` | event_base_core/src/queues/consumer_router.rs:364-442 | a claim enters the inbox of the first cached worker that answers, or of the next in the rotation, under that name and otherwise unchanged; it waits to be given back if that inbox does not take it or no worker is cached, and to be relayed with one more attempt, or is dropped at the cap, if nobody answers |
| `DeliveryPaths.RunLeadsWhereItShould` | event_base_core/src/worker.rs:281-375 | one run in terms of the handler's answer: completed, counted and put back, tried again on the own queue or through the delay store at exactly the clock plus the delay, or on to the dead-letter topic at the limit or on request; a message for somebody else goes back with one more attempt |
| `DeliveryPaths.RoutedWhereItShould` | event_base_core/src/queues/consumer_router.rs:161-243 | the receive loop takes a message to the queue of the worker found for it, to a one-shot worker, to its topic's queue with one more attempt, to its end at the cap, or back |
| `DeliveryPaths.ArrivesWhereItIsSent` | event_base_core/src/topic.rs:146-189 | a submitted message is last on the queue of its topic, or in the delay store if it has a time, and its history starts there |
| `DeliveryPaths.DueDelayIsFetched` | event_base_wal/src/memory.rs:88-109 | the scheduler takes exactly a due record out of its slot and clears its time |
| `DeliveryPaths.DispatcherGoesOn` | event_base_core/src/queues/consumer_router.rs:336-442 | a dispatcher's step changes no other agent, and leaves it idle once the message is out of its hand |
| `DeliveryPaths.WorkerGoesOn` | event_base_core/src/worker.rs:180-230 | a worker's step changes no other agent, and leaves it holding after a receive and idle after a send or a failure |
| `DeliveryPaths.LifecycleDoes` | event_base_core/src/queues/consumer_router.rs:531-781 | registering, starting a dispatcher, creating and deleting a worker and closing an inbox do that and move no message |
| `DeliveryPaths.DeletedWorkerDoesNothing` | event_base_core/src/queues/consumer_router.rs:739-743 | over every run, a deleted worker takes no further step |
| `DeliveryPaths.ClosedInboxGainsNothing` | event_base_core/src/queues/consumer_router.rs:385-402 | over every run, an inbox that is closed gains no message |
| `DeliveryPaths.CompletedOnlyByItsLastRun` | event_base_core/src/worker.rs:281-321 | a step completes a message exactly if it is a handler's run of it that is acknowledged and, for a repeated message, reaches the count, or a run on a system topic; and then it completes no other |
| `DeliveryPaths.CompletedByAHandler` | event_base_core/src/worker.rs:281-321 | over every run, whatever is completed was put there by such a run |
| `DeliveryPaths.CompletedExactlyWhenRunAsOwed` | event_base_core/src/worker.rs:283-305 | over every run, a completed message has been run, on business topics exactly as often as it owed when it entered, retried runs not counted, and a message on its way less often |
| `DeliveryPaths.UnhandledMessageIsAsSubmitted` | event_base_core/src/queues/consumer_router.rs:383-440 | over every run, whatever inboxes, relays, delays and queues it has been through, a message not dead-lettered keeps topic and mode, and until a handler has run it the payload it was submitted with |
| `DeliveryRuns.NothingFails` | event_base_core/src/worker.rs:420-475 | in runs where no send and no status report fails, no message is ever lost to a failed call |
| `DeliveryRuns.InboxIsStamped` | event_base_core/src/queues/consumer_router.rs:383-440 | whatever waits in a worker's inbox carries that worker's name, so the worker never finds it misrouted |
| `DeliveryRuns.HandledByItsTarget` | event_base_core/src/queues/consumer_router.rs:373-386 | a message that entered its topic with a target is only ever run by the worker of that name or of its node-qualified form, across relays, requeues and delayed retries |
| `DeliveryRuns.SameWorkerEveryTime` | event_base_core/src/queues/consumer_router.rs:424-432 | a stamped message that has been run once is run again, on that topic, only by the same worker |
| `DeliveryRuns.RunsAndRelaysAreBounded` | event_base_core/src/worker.rs:281-375 | on its topic a message owing n runs and entering with a attempts is relayed at most 64 − a times and run at most n + max(R − a, 1) − 1 times, R being the largest retry limit it was given |
| `DeliveryRuns.DroppedExactlyAtTheCap` | event_base_core/src/worker.rs:553-566 | a dropped message was targeted and had used up the counter shared by relays and retries; without retries it was relayed exactly up to the cap |
| `DeliveryEffort.EffortPaysForEveryStep` | event_base_core/src/worker.rs:281-375 | every step on a message within its own retry limits lowers its effort, except that handing back an undeliverable claim may raise it by one; steps on other messages, whatever their limits, do not raise it |
| `DeliveryEffort.WorkOnAMessageIsBounded` | event_base_core/src/worker.rs:281-375 | over any stretch of any run the steps spent on a message are bounded by its owed repeats and remaining attempts, plus the number of times it was handed back, whatever retry limits other messages are given |
| `DeliveryStall.WedgedExactlyUntilFreed` | event_base_queue/src/crossfire.rs:195-205 | with a topic's queue full, all its dispatchers waiting to give a message back or relay it and no worker reading the queue, a step leaves that so exactly if it is not a new dispatcher, a new reader or a failed relay on the topic, and then moves none of the messages waiting there |
| `DeliveryStall.WedgeLastsUntilFreed` | event_base_core/src/queues/consumer_router.rs:364-423 | over any stretch of any run without such a step, queue, dispatchers and the messages in their hands stay as they were |
| `DeliveryStall.WedgeIsReachable` | event_base_core/src/queues/consumer_router.rs:364-370 | for every positive capacity a run gets a topic with a dispatcher into that state |
| `DeliverySteps.RunGood` | event_base_core/src/worker.rs:281-375 | one handler run that changes no more than the payload keeps a message's counters, target and delivery mode in agreement with its history |
| `Dispatch.FirstAnswer` | event_base_core/src/queues/consumer_router.rs:373-381 | the position found is the first cached name equal to the target or to its node-qualified form, and none is found only if there is none |
| `Dispatch.HopsEndAtTheCap` | event_base_core/src/worker.rs:553-566 | k hops in a row leave the message as it was with k more attempts, and exist exactly as long as that does not exceed 64 |
| `Dispatch.Decide` | event_base_core/src/queues/consumer_router.rs:364-442 | no decision without workers; a target is only given to a worker that answers to it; relay and drop only when nobody answers; drop only at the cap |
| `TopicDispatcher.LocalTargetEntersOwnInbox` | event_base_core/src/queues/consumer_router.rs:373-402 | a message aimed at a cached worker enters that worker's inbox and no other, or goes back to the queue unchanged if that inbox is full or closed |
| `Relays.EverySiteHops` | event_base_core/src/worker.rs:553-566 | dispatcher, receive loop and worker alike pass a targeted message on by exactly one hop of the shared counter, and drop it only at the cap |
| `Relays.AbsentTargetIsDroppedAtTheCap` | event_base_core/src/queues/consumer_router.rs:404-423 | whatever dispatchers, receive loops and workers meet it in turn, a message nobody answers to is relayed exactly 64 − attempts times and then dropped |
| `Relays.RelaysNeverPassTheCap` | event_base_core/src/queues/consumer_router.rs:193-230 | no mix of the three relays a message more than 64 − attempts times, and a drop comes exactly there |
| `Dispatch.RoundRobinIsFair` | event_base_core/src/queues/consumer_router.rs:359-428 | over any run with an unchanged list, across refreshes and targeted messages, any two workers are picked equally often give or take one, while the cursor does not wrap, and across wraps if the length divides 2^64 |
| `Dispatch.WrapBreaksTheRotation` | event_base_core/src/queues/consumer_router.rs:426-427 | for every other length the first wrap puts worker 0 two picks ahead of the last worker |
| `Dispatch.FairForeverExactlyIfTheLengthDivides` | event_base_core/src/queues/consumer_router.rs:426-427 | fairness holds over all runs exactly for the lengths that divide 2^64 |
| `WorkerProcess.StatusesMatchDisposition` | event_base_core/src/worker.rs:248-383 | a business run reports Processing first and, last, Complete, Pending or Failed as the message was finished, put back or dead-lettered, always for its own id |
| `WorkerProcess.NoAckRetriesBelowTheLimit` | event_base_core/src/worker.rs:324-352 | a negative answer dead-letters the message exactly if its attempts, with this one, reach the limit, with that reason; otherwise it goes on with one more attempt, scheduled at the clock plus the delay if one was given and the sum fits, and straight onto the own queue without one |
| `WorkerProcess.RetriesEndAtTheLimit` | event_base_core/src/worker.rs:324-352 | whatever the delays, k failed runs under one limit leave the message with k more attempts exactly as long as these stay below the limit |
| `WorkerProcess.DeadIsDeadLettered` | event_base_core/src/worker.rs:353-375 | an answer that gives the message up dead-letters it as it is, without its stamp, for the reason given |
| `WorkerProcess.AckFinishesOrCounts` | event_base_core/src/worker.rs:281-321 | an acknowledgement finishes a message exactly if it is not to be repeated or this run reaches its count, and otherwise puts it back counted |
| `WorkerProcess.RepeatedOwesItsRuns` | event_base_core/src/worker.rs:283-305 | after k acknowledged runs a repeated message is finished exactly if it owed runs and k reached them |
| `WorkerProcess.Worker.ProcessMsg` | event_base_core/src/worker.rs:230-375 | a run makes exactly the reports and sends of its outcome; if call number b fails, exactly the first b reports are out, nothing has been sent on and the run is an error; if the clock went back during the handler the run is an error that stops at Processing; a run that goes through, as it does with four calls to come, has sent on exactly what the answer calls for, to the own queue or the router |
| `WorkerProcess.Worker.Settle` | event_base_core/src/worker.rs:281-375 | the same for the part after the handler's answer, which makes at most three calls |
| `WorkerProcess.Worker.Retry` | event_base_core/src/worker.rs:322-351 | the same for a negative answer: dead-letter at the limit, delayed retry through the router, or straight requeue |
| `WorkerProcess.Worker.RequeueMessage` | event_base_core/src/worker.rs:377-383 | reports Pending and puts the unchanged message on the worker's own queue |
| `WorkerProcess.Worker.SendToDeadLetter` | event_base_core/src/worker.rs:423-475 | the letter is reported Failed and routed on the dead-letter topic without its delivery stamp |
| `WorkerProcess.Worker.RouteTargeted` | event_base_core/src/worker.rs:553-566 | one more hop on the worker's own queue below the cap, nothing at it; a failed send is ignored |
| `Queue.Consumer.Claim` | event_base_queue/src/crossfire.rs:150-164 | moves the head of the channel to the pending map under a fresh id; what is in flight does not change |
| `Queue.Consumer.ClaimBatch` | event_base_queue/src/crossfire.rs:166-187 | claims the first min(max, length) messages in order under distinct fresh ids; what is in flight does not change |
| `Queue.Consumer.Ack` | event_base_queue/src/crossfire.rs:189-193 | takes exactly the claimed message out of flight |
| `Queue.Consumer.Nack` | event_base_queue/src/crossfire.rs:195-205 | puts the claimed message back unchanged at the end of the channel, or fails and leaves it pending; what is in flight does not change |
| `Recv.FateHonoursTheTarget` | event_base_core/src/queues/consumer_router.rs:161-243 | a targeted message is forwarded unchanged to an indexed worker that answers to it, relayed by one hop or dropped at the cap only when none answers, never given to a one-shot worker, and given back only for an unknown topic or a refused send |
| `Recv.FateWithoutATarget` | event_base_core/src/queues/consumer_router.rs:181-243 | an untargeted message goes back exactly if its topic is unknown or the send is refused; otherwise it goes to the idle worker, or to a one-shot one if there is none |
| `Recv.MachineFollowsTheLoop` | event_base_core/src/queues/consumer_router.rs:161-243 | the delivery machine moves a message of a batch to exactly the place the loop puts it |
| `Recv.EveryClaimOnOneList` | event_base_core/src/queues/consumer_router.rs:157-243 | every claim of a batch is on exactly one of the two lists: nacked exactly if it was neither forwarded nor dropped |
| `Recv.EveryForwardInItsPlace` | event_base_core/src/queues/consumer_router.rs:184-243 | a batch has one forward per forwarded claim, and each stands where the claim's rank among them says |
| `Recv.ListsKeepTheOrder` | event_base_core/src/queues/consumer_router.rs:157-253 | acks, nacks and returned messages keep the order of the batch |
| `Recv.Loop.DispatchOne` | event_base_core/src/queues/consumer_router.rs:161-243 | one pass of the loop forwards at most one copy, as its fate says, and asks for an ack exactly if the claim is settled |
| `Recv.Loop.NackAll` | event_base_core/src/queues/consumer_router.rs:251-253 | the loop takes the nacks one after another and ignores their errors |
| `Recv.NackedGoBack` | event_base_core/src/queues/consumer_router.rs:251-253 | on an open queue distinct pending claims nacked in turn are all back at its end, unchanged and in order, and no longer pending; nothing else changes |
| `Recv.Loop.RecvBatch` | event_base_core/src/queues/consumer_router.rs:139-254 | a batch takes as many messages as it may; after it exactly one copy per forwarded claim is out, in order, returned messages are back on the queue in order, and the pending map is as before unless the queue is closed |
| `TopicDispatcher.PassMovesOneMessage` | event_base_core/src/queues/consumer_router.rs:364-442 | on an open queue a pass keeps the message in flight, or puts exactly its stamped copy into the one inbox of a cached worker its target allows, or replaces it by its one-hop copy or drops it at the cap when no cached worker answers; every other inbox is untouched |
| `TopicDispatcher.Dispatcher.Refresh` | event_base_core/src/queues/consumer_router.rs:347-362 | whatever was cached before, the rotation keeps its place, and a rebuilt cache holds exactly the listed names that have an inbox |
| `TopicDispatcher.Dispatcher.LocalMatch` | event_base_core/src/queues/consumer_router.rs:373-381 | the loop finds the first cached worker that answers to the target |
| `TopicDispatcher.Dispatcher.Offer` | event_base_core/src/queues/consumer_router.rs:385-402 | the claim is released only once the stamped copy is in the inbox; otherwise it is nacked and the cache invalidated |
| `TopicDispatcher.Dispatcher.Handle` | event_base_core/src/queues/consumer_router.rs:364-442 | queue, claims, inboxes, cursor and cache generation end as the decision about the message says |
| `TopicDispatcher.Dispatcher.Pass` | event_base_core/src/queues/consumer_router.rs:336-442 | a pass handles the head of the queue with the refreshed cache, and does nothing on an empty queue |
| `RouterTables.WithoutCutsInPlace` | event_base_core/src/queues/consumer_router.rs:745-751 | removing a name from a list removes it from each part of the list, so the others keep their number and order |
| `RouterTables.StepKeepsConsistent` | event_base_core/src/queues/consumer_router.rs:265-284 | every table operation keeps the tables consistent, the dispatchers started for each registration included |
| `RouterTables.TablesStayConsistent` | event_base_core/src/queues/consumer_router.rs:491-781 | after any sequence of operations each topic's list is its dispatch list, a name is on a list exactly if the index files it there, once, inboxes are the indexed names, each registration has started at most one dispatcher, the present one exactly one once the topic has workers, and none before its first |
| `RouterTables.RegisterAddsExactly` | event_base_core/src/queues/consumer_router.rs:265-284 | registering adds the topic with no workers, or changes nothing if it is known, and leaves every worker and other topic as it was |
| `RouterTables.CreateWorkerAddsExactly` | event_base_core/src/queues/consumer_router.rs:531-592 | a created worker is indexed under its topic, last on both lists, has an inbox, and the generation is one further; every other worker and topic stays; an unknown topic changes nothing |
| `RouterTables.DelWorkerRemovesExactly` | event_base_core/src/queues/consumer_router.rs:739-757 | a deleted worker is named by no table any more, every other worker and topic stays, and the generation is one further; an unknown worker changes nothing |
| `RouterTables.DelWorkersRemovesExactly` | event_base_core/src/queues/consumer_router.rs:765-781 | a deleted topic and exactly its workers are gone from every table, and the generation is one further |
| `RouterTables.TopicIsThereExactlyIfKnown` | event_base_core/src/queues/consumer_router.rs:265-284 | after any operations a topic is in the tables exactly if it was registered and not deleted since |
| `RouterTables.WorkerIsThereExactlyIf` | event_base_core/src/queues/consumer_router.rs:491-781 | after any operations a worker is listed, indexed under a topic and has its inbox exactly if it was created there on a known topic and neither was deleted since |
| `ConsumerRouter.RetainAll` | event_base_core/src/queues/consumer_router.rs:745-751 | removes one name from every list and nothing else |
| `ConsumerRouter.Router.Register` | event_base_core/src/queues/consumer_router.rs:265-284 | adds the topic with no workers, or fails on a known one, leaving the rest alone |
| `ConsumerRouter.Router.CreateWorker` | event_base_core/src/queues/consumer_router.rs:531-592 | the maps edited one after another come to the table operation of the same name; fails exactly on an unknown topic |
| `CreateRace.StepKeepsInv` | event_base_core/src/queues/consumer_router.rs:539-587 | every step of a create, and every other table operation between them, keeps the invariant |
| `CreateRace.OthersAreSingleSteps` | event_base_core/src/queues/consumer_router.rs:739-781 | registering and deleting beside creates under way do what they do alone, and leave the creates as they were |
| `CreateRace.TopicsStayInOrder` | event_base_core/src/queues/consumer_router.rs:531-592 | in every interleaving, a topic never deleted under a create lists exactly its indexed workers, has started at most one dispatcher per registration and, once it has workers, exactly one on the queue of its present one |
| `CreateRace.QuietTablesAreConsistent` | event_base_core/src/queues/consumer_router.rs:531-592 | with no create under way and none overtaken, the tables are as consistent as if creates were single steps |
| `CreateRace.OvertakenCreateStrandsItsWorker` | event_base_core/src/queues/consumer_router.rs:491-512 | from any state, a topic deleted under a create in any phase can end with a worker that is indexed and on no list: the create only has to go on |
| `CreateRace.ReregisteredTopicIsUnserved` | event_base_core/src/queues/consumer_router.rs:566-579 | if the create had not started its dispatcher yet, the topic registered again can get a worker and no dispatcher on its new queue |
| `CreateRace.OvertakenCreateStartsAnother` | event_base_core/src/queues/consumer_router.rs:566-579 | likewise the create goes on to start one more dispatcher on the queue of the registration it looked up, a second one if that had one already |
| `ConsumerRouter.Router.DelWorker` | event_base_core/src/queues/consumer_router.rs:739-757 | the maps edited one after another come to the table operation of the same name; fails exactly on an unknown worker |
| `ConsumerRouter.Router.DelWorkers` | event_base_core/src/queues/consumer_router.rs:765-781 | the maps edited one after another come to the table operation of the same name |
| `CreateRace.OvertakingIsReachable` | event_base_core/src/queues/consumer_router.rs:539-545 | a run from empty tables reaches a create that has looked its topic up, can be overtaken, and whose registration already has its dispatcher |
| `CacheCoherence.StepKeepsInv` | event_base_core/src/queues/consumer_router.rs:347-362 | every single read of the dispatcher and every single edit of a create or delete keeps the cache invariant |
| `CacheCoherence.CacheIsCoherent` | event_base_core/src/queues/consumer_router.rs:347-362 | in every interleaving, a cache of the current generation equals the topic's list filtered through the live inboxes whenever no operation is between an edit that concerns the topic and its bump |
| `CacheCoherence.StaleAfterABumpOrAFailure` | event_base_core/src/queues/consumer_router.rs:394-400 | a bump and a failed delivery both leave a cache that does not pass for current |
| `CacheCoherence.RefreshBringsTheCacheUpToDate` | event_base_core/src/queues/consumer_router.rs:347-362 | such a cache, or an empty one, equals the live entries after the three reads; a current one is left alone |
| `CacheCoherence.CreatedWorkerIsLive` | event_base_core/src/queues/consumer_router.rs:491-512 | a create that is through adds its worker, last, to the live entries of its topic and of no other |
| `CacheCoherence.DeletedWorkerIsNotLive` | event_base_core/src/queues/consumer_router.rs:739-757 | a delete that is through removes exactly its worker's entries |
| `CacheCoherence.ClosingGoesOn` | event_base_core/src/queues/consumer_router.rs:765-781 | deleting a topic closes the inboxes of its workers in turn and then removes its list, and no other |
| `CacheCoherence.GivenUpCreateLeavesItsInbox` | event_base_core/src/queues/consumer_router.rs:508-511 | a create whose topic has gone ends with its inbox left over and no other trace in what dispatchers read |
| `CacheCoherence.ResolvedIsLive` | event_base_core/src/queues/consumer_router.rs:354-357 | an entry is in the resolved list exactly if its name is listed and has that inbox |
| `CacheCoherence.RemovalLeavesAGhostUntilTheBump` | event_base_core/src/queues/consumer_router.rs:739-781 | from any coherent current cache, closing a cached worker's inbox, taking its name off the lists or removing its topic leaves the cache passing for current and naming it until some bump or invalidation, whatever else happens |
| `CacheCoherence.PushIsMissedUntilTheBump` | event_base_core/src/queues/consumer_router.rs:502-507 | from any coherent current cache in use, a worker pushed onto the topic's list is missing from a cache that passes for current until then, and the cache is incoherent while that worker has its inbox |
| `LockOrder.StepKeepsInv` | event_base_core/src/queues/consumer_router.rs:491-781 | in every step no two calls hold a lock in ways that exclude each other |
| `LockOrder.SomeoneMoves` | event_base_core/src/queues/consumer_router.rs:491-781 | unless both orders are used under read guards, some call under way can always take its next lock or end |
| `LockOrder.DeadlockIsForever` | event_base_core/src/queues/consumer_router.rs:739-744 | two calls that wait for each other's locks do so for the rest of the run |
| `LockOrder.LivelyExactlyUnlessOrdersMix` | event_base_core/src/queues/consumer_router.rs:491-498 | every reachable state with a call under way has one that can go on, exactly if deleting a worker and a call that locks the topics first are not both made under the read guard |
| `LockOrder.PlansTakeWhatCallsNeed` | event_base_core/src/queues/consumer_router.rs:470-781 | a call takes each lock it needs once, exclusively if it writes under it |
| `LockOrder.LoneCallRunsThrough` | event_base_core/src/queues/consumer_router.rs:491-781 | a call that meets nobody takes its locks in turn, ends, and leaves every lock free |
| `CacheCoherence.StaleBetweenEditAndBump` | event_base_core/src/queues/consumer_router.rs:743-752 | a run that reaches such a state |
| `DelayStore.RoundingOnlyHastens` | event_base_wal/src/redis.rs:64-81 | what is due by the map is due by the score, and what is due by the score is less than a millisecond early |
| `DelayStore.WithoutATimeNeverFires` | event_base_wal/src/redis.rs:71-81 | a record without a delivery time is due in neither store |
| `DelayStore.BeyondTheRangeFiresAtOnce` | event_base_wal/src/redis.rs:71-76 | a delivery time from 2^63 ms up to 2^64 ms is due at every clock reading in range |
| `DelayStore.ScoresRepeat` | event_base_wal/src/redis.rs:71-76 | delivery times 2^64 ms apart are due at the same clock readings |
| `DelayStore.NeverEarlyExactlyInRange` | event_base_wal/src/redis.rs:64-81 | a record is less than a millisecond early at every clock reading in range exactly if its time is below 2^63 ms |
| `DelayStore.FindDue` | event_base_wal/src/memory.rs:94-103 | the first loop finds exactly the due records, once each |
| `DelayStore.RemoveAll` | event_base_wal/src/memory.rs:105-107 | the second loop removes exactly what was found |
| `DelayStore.TakeDue` | event_base_wal/src/memory.rs:88-109 | a fetch answers every due record once and leaves exactly the others |
| `DelayStore.MemoryWal.FetchReady` | event_base_wal/src/memory.rs:88-109 | the same for the object |
| `DelayStore.RedisWal.RangeByScore` | event_base_wal/src/redis.rs:252-258 | the members with a score up to the bound, once each |
| `DelayStore.RedisWal.FetchReady` | event_base_wal/src/redis.rs:250-289 | with one caller, answers every record due by its score once, removes it from hash and index, and leaves exactly the others in both |
| `DelayStore.RedisWal.Schedule` | event_base_wal/src/redis.rs:217-244 | hash and index stay two views of one map |
| `DelayStore.RedisWal.RemoveScheduled` | event_base_wal/src/redis.rs:291-306 | removes the id from both and keeps them in step |
| `DelayStore.HoldsExactlyWhatWasScheduled` | event_base_wal/src/redis.rs:217-306 | after any calls either store holds under an id exactly the record last scheduled under it, numbered in turn, unless it was removed or due at a fetch since |
| `DelayStore.DeliveredExactlyWhenFoundDue` | event_base_wal/src/memory.rs:88-109 | what either store has delivered is exactly what some fetch found in it, due |
| `DelayStore.RedisIsInTime` | event_base_wal/src/redis.rs:250-289 | over any sequence of calls, a record the Redis store has delivered was in it when some fetch took it, and that fetch was less than a millisecond early |
| `DelayStore.RedisKeepsUpWithMemory` | event_base_wal/src/redis.rs:217-306 | over any sequence of calls, everything the map has delivered the Redis store has delivered by then, it holds no other records, and each of its deliveries was taken by a fetch less than a millisecond before the record's time, or without a time only in the last millisecond of the clock |
| `DelayRace.DeliveriesNeverExceedSchedules` | event_base_wal/src/redis.rs:217-306 | in every interleaving of any number of callers, with crashes between commands, an id is delivered no more often than it was scheduled |
| `DelayRace.UndisturbedScheduleStores` | event_base_wal/src/redis.rs:217-244 | a schedule that goes through has its record in hash and index under its score |
| `DelayRace.UndisturbedFetchDelivers` | event_base_wal/src/redis.rs:250-289 | a fetch delivers the first due member that has a payload and takes it, and no other, out of hash and index |
| `DelayRace.UndisturbedRemovalRemoves` | event_base_wal/src/redis.rs:291-306 | a removal takes exactly its id out of both and delivers nothing |
| `DelayRace.LeavingChangesNothingStored` | event_base_wal/src/redis.rs:250-306 | a caller that ends or crashes between two commands leaves the store as it is |
| `DelayRace.IndexedRecordHasItsPayload` | event_base_wal/src/redis.rs:217-306 | as long as no schedule of an id has overtaken a deletion of it, its index entry has the payload and score of its last schedule, whatever happens to other ids |
| `DelayRace.OvertakenDeletionOrphans` | event_base_wal/src/redis.rs:291-306 | from any state, a schedule that overtakes a deletion is left without its payload once the deletion finishes |
| `DelayRace.ScheduledOnceIsNotCrossed` | event_base_wal/src/redis.rs:217-306 | an id scheduled at most once, and not removed before that, is never overtaken in this way |
| `DelayRace.DeliveriesAreCurrentAndDue` | event_base_wal/src/redis.rs:250-289 | however often an id is rescheduled, as long as no schedule of it has overtaken a fetch every delivery of it is the record last scheduled at that moment, and due |
| `DelayRace.OvertakenFetchDeliversWrongly` | event_base_wal/src/redis.rs:250-289 | from any state, a fetch overtaken at any position of its list, at its claim or with its record in hand goes on to deliver something early or out of date |
| `DelayRace.OvertakingIsReachable` | event_base_wal/src/redis.rs:217-306 | runs from an empty store reach a fetch that is about to be overtaken, in its list and at its claim |
| `DelayRace.ScheduledOnceIsDeliveredOnceAndDue` | event_base_wal/src/redis.rs:250-289 | a message scheduled once is delivered at most once, as it was scheduled, and not before its score, whatever happens to other messages |
| `PersistentWal.OpKeepsSound` | event_base_wal/src/persistent.rs:61-141 | every operation keeps record ids distinct across records and delays and at most the counter |
| `PersistentWal.RecordIdsStayDistinct` | event_base_wal/src/persistent.rs:61-117 | so they are in memory and on disk throughout every run with flushes and crashes |
| `PersistentWal.RecordIsAsLastAppended` | event_base_wal/src/persistent.rs:62-83 | after any operations the log holds a message as it was last appended, numbered in turn, with the last status reported since |
| `PersistentWal.NothingElseIsRecorded` | event_base_wal/src/persistent.rs:62-83 | a message never appended has the record it had, or none |
| `PersistentWal.DelaysFollowTheMemoryStore` | event_base_wal/src/persistent.rs:109-147 | the delay operations change the delays as those of the in-memory store do, and no other operation touches them |
| `PersistentWal.EveryOperationIsInMemory` | event_base_wal/src/persistent.rs:61-147 | between two states with no crash in between, memory has seen every operation once and in order, flushes and failed flushes or not |
| `PersistentWal.FlushKeepsEveryOperation` | event_base_wal/src/persistent.rs:94-107 | after a completed flush the file opens to everything done since the log was opened |
| `PersistentWal.FailedFlushLosesNothing` | event_base_wal/src/persistent.rs:94-107 | a flush that fails at the write or at the rename leaves memory, and what the file opens to, as they were |
| `PersistentWal.ReopenGivesTheLastFlush` | event_base_wal/src/persistent.rs:34-107 | over every run of operations, flushes, failed flushes and crashes at any point, opening the file gives exactly the last completed flush |
| `PersistentWal.TmpPathLosesTheLastFlush` | event_base_wal/src/persistent.rs:103-105 | with the extension `tmp`, from any state, a crash during the write leaves a file that does not open, and one between write and rename a file that opens to the flush that was not completed |
| `PersistentWal.RecoversExactlyUnlessTmp` | event_base_wal/src/persistent.rs:94-107 | opening gives exactly the last completed flush in every state of every run exactly if the file's extension is not `tmp` |
| `PersistentWal.Wal.Open` | event_base_wal/src/persistent.rs:34-57 | an absent file opens as an empty log, a whole one as what it holds, a broken one is an error |
| `PersistentWal.Wal.Flush` | event_base_wal/src/persistent.rs:94-107 | a flush that goes through leaves the path opening to exactly what is in memory; one whose write or rename fails leaves it opening to what it did before, the temporary file being another one; other files are untouched |
| `PersistentWal.Wal.UpdateState` | event_base_wal/src/persistent.rs:70-83 | changes the status of a known record and nothing else; an unknown id is an error and changes nothing |
| `PersistentWal.Wal.FetchReady` | event_base_wal/src/persistent.rs:118-141 | answers every due delay once and leaves exactly the others |
| `PersistentWal.Wal.ReplayPending` | event_base_wal/src/persistent.rs:85-92 | answers exactly the pending records, once each |
| `PersistentWal.LastStatusWins` | event_base_core/src/system_handlers/wal.rs:28-56 | a record ends on the last status reported for it, whatever was reported for other messages in between |
| `PersistentWal.ReplayedExactlyWhenPutBack` | event_base_core/src/wal/sync.rs:62-144 | after a business run's reports have been applied, the record is pending, and so replayed, exactly if the run put the message back |
| `RedisStream.StepKeepsInv` | event_base_queue/src/redis_streams.rs:356-527 | every command, failure and crash keeps the consumers' claims and the group's books in agreement with the stream |
| `RedisStream.DeliveredIsPendingOrReleased` | event_base_queue/src/redis_streams.rs:420-527 | in every run, a delivered message entry is pending at one consumer, acked, or replaced by its copy: exactly one of the three |
| `RedisStream.LastCopyIsNeverLost` | event_base_queue/src/redis_streams.rs:458-470 | in every run, every message on the stream, itself or as the copy that replaced it, is unread, pending or acked |
| `RedisStream.NackPutsTheMessageBack` | event_base_queue/src/redis_streams.rs:458-470 | a nack adds the claimed message to the stream again, acknowledges nothing, and replaces the entry by the new one if it was still pending |
| `RedisStream.AckReleasesTheEntry` | event_base_queue/src/redis_streams.rs:443-454 | an ack takes the claimed entry out of the pending list for good and adds nothing |
| `RedisStream.AcknowledgedOnlyOnRequest` | event_base_queue/src/redis_streams.rs:397-464 | over every run, an entry is acknowledged only by an ack begun on a claim that held it, or by a pop; no nack, reclaim or failure does it |
| `RedisStream.ReadHandsOutTheNext` | event_base_queue/src/redis_streams.rs:415-441 | a claim hands out the first unread message and files it with its consumer |
| `RedisStream.PopTakesTheNext` | event_base_queue/src/redis_streams.rs:397-413 | a pop hands out the first unread message and acknowledges it at once |
| `RedisStream.NoMessageIsHandedOut` | event_base_queue/src/redis_streams.rs:369-384 | what is no message is never handed out: thrown away, skipped, or the end of the call |
| `RedisStream.StreamIsWhatWasAdded` | event_base_queue/src/redis_streams.rs:196-246 | over every run, the stream is what it was followed by everything produced or nacked, in that order, and nothing else |
| `RedisStream.ConsumersComeAndGo` | event_base_queue/src/redis_streams.rs:352-527 | joining, crashing and giving up a call change that consumer only: stream, pending list and acknowledgements stay |
| `RedisStream.AnyoneCanRecover` | event_base_queue/src/redis_streams.rs:480-527 | in every run, a pending message can be taken over by any idle consumer |
| `Registry.PersistedEqualsMemory` | event_base_core/src/worker_registry.rs:88-189 | in every interleaving of edits and saves, with failures and restarts, the persisted registry is the map once all calls have returned and none has failed since the last save |
| `Registry.SaveCatchesUp` | event_base_core/src/worker_registry.rs:180-189 | any save that goes through makes the persisted registry the map, whatever failed before |
| `Registry.CallRunsThrough` | event_base_core/src/worker_registry.rs:88-189 | a call whose steps go through has its edit in the map and on disk; one whose save fails is over and has it in the map only |
| `Registry.RestartLoadsWhatWasSaved` | event_base_core/src/worker_registry.rs:54-67 | a restart has the saved registry and no call under way |
| `Registry.EditIsAboutItsWorker` | event_base_core/src/worker_registry.rs:88-178 | an edit registers, removes or refreshes its own worker, or removes the stale ones, and leaves the others as they were |
| `Registry.RegisteredExactlyIf` | event_base_core/src/worker_registry.rs:88-178 | after any edits a worker is registered exactly if it was, or came to be, and no later edit removed it |
| `Registry.WithoutTheGuardAnEditIsLost` | event_base_core/src/worker_registry.rs:180-189 | without the guard two registrations that both return Ok can leave one of them unsaved |
| `Registry.WorkerRegistry.Register` | event_base_core/src/worker_registry.rs:88-94 | the map has the worker under its name, and the log the whole map if the save went through |
| `Registry.WorkerRegistry.Unregister` | event_base_core/src/worker_registry.rs:100-106 | the map lacks the worker, and the log is the whole map if the save went through |
| `Registry.WorkerRegistry.Heartbeat` | event_base_core/src/worker_registry.rs:112-122 | a known worker gets the new time, an unknown one is not added, and the map is saved either way |
| `Registry.WorkerRegistry.GetWorkers` | event_base_core/src/worker_registry.rs:128-136 | the workers of a topic, once each |
| `Registry.EditsKeepKeyed` | event_base_core/src/worker_registry.rs:88-178 | every edit keeps workers filed under their own name |
| `Registry.WorkerRegistry.CleanupStale` | event_base_core/src/worker_registry.rs:153-178 | removes and answers exactly the stale workers, then saves |
| `Heartbeats.AttendedWorkerIsNeverEvicted` | event_base_core/src/system_handlers/worker.rs:101-131 | a worker whose last sign is never older than the timeout when a sweep runs is never evicted, over any run of edits in clock order |
| `Heartbeats.LostAndLateBeatsAreTolerated` | event_base_core/src/system_handlers/worker.rs:101-131 | with a beat every 15 s, at most n lost in a row and the others at most d late, no sweep evicts the worker whose timeout is at least (n + 1) · 15 s + d |
| `Heartbeats.FiveLostBeatsAreTolerated` | event_base_core/src/system_handlers/worker.rs:101-131 | so at most five lost in a row, with none late, survive every 90 s sweep |
| `Heartbeats.SixLostBeatsAreTooMany` | event_base_core/src/system_handlers/worker.rs:108-111 | after six lost beats the next sweep does |
| `Heartbeats.SilentWorkerIsEvicted` | event_base_core/src/system_handlers/worker.rs:220-239 | with sweeps at most 30 s apart a silent worker is gone within 120 s of its last heartbeat, and stays gone |
| `Heartbeats.BeatAfterTheClockWasRead` | event_base_core/src/worker_registry.rs:153-171 | a worker that beats before a sweep survives it exactly if the sweep read its clock neither before the beat nor later than the timeout after it |
| `TopicRouter.Router.Send` | event_base_core/src/topic.rs:146-189 | a message with a time is only scheduled; a broadcast emits a copy per registered worker, or on an error the copies of a prefix of them, and nothing from a worker node; anything else is emitted once under the topic asked for |
| `TopicRouter.Router.FanOut` | event_base_core/src/topic.rs:177-183 | copies go out in order until the first error |
| `TopicRouter.CopiesAreDistinct` | event_base_core/src/topic.rs:177-183 | the copies of a broadcast have pairwise distinct ids and targets |
| `TopicRouter.CopiesAreTheMessage` | event_base_core/src/topic.rs:177-183 | a copy is the message, payload and all, but for its id and its target |
| `TopicRouter.OneCopyPerWorker` | event_base_core/src/topic.rs:172-183 | a worker has exactly one copy if it is registered for the topic, and none otherwise |
| `TopicRouter.CopyReachesItsWorker` | event_base_core/src/queues/consumer_router.rs:373-402 | a copy whose worker is local, when dispatched, enters that worker's inbox and no other, or goes back to the queue unchanged if that inbox is full or closed |
| `TopicRouter.CopiesStayOnTheirTopic` | event_base_core/src/topic.rs:177-188 | copies are on the topic asked for exactly if the message was |

## Left out

- DeliverySteps.RunGood: middleware may change the payload only; in the original it may rewrite the whole message, its id and counters included, and then nothing is promised.
- Queue.Consumer.Claim: answers None on an empty channel, where the original waits; likewise a send to a full channel waits there and goes through here, and in `Delivery` such a step is not enabled.
- TopicDispatcher.Dispatcher.Pass: one pass with one reading of the tables and no reclaimed entries; separate readings are in `CacheCoherence`, and taking over stale claims, which the in-memory queue never does, is in `RedisStream`.
- ConsumerRouter.Router.CreateWorker: runs without another call in between; the interleavings are in `CreateRace`.
- RedisStream.AnyoneCanRecover: any pending entry can be reclaimed at any time; the idle threshold is not modelled.
- Broadcast messages in `Delivery`: their copies keep Broadcast mode and fan out again on a delayed retry or dead letter, so one-copy conservation is stated for Standard and Repeated messages.
- Crashes in `Delivery`: the machine has failing sends and deleted workers but no process crash; the dispatcher releases a relayed claim before it sends the copy, so a crash there loses it.
- Registering a topic again after `del_workers` in `Delivery`: topics are registered once there; `RouterTables` and `CreateRace` cover re-registration.
- LockOrder.LivelyExactlyUnlessOrdersMix: a waiting call gets a lock as soon as its holders allow; that tokio may queue a reader behind a waiting writer is not modelled, nor is a call that takes the global lock a second time under its own guard.
- Streams with trimming (`maxlen`), and fan-out groups that start at the end of the stream, in `RedisStream`.
- The order in which Redis answers members of equal or different score: a fetch answers them in some order.
- Two handles on one log file, and the log's in-place sharing between clones.
- `MemoryWal` status updates for unknown ids, which insert a placeholder record under another message id.
- Record fields no modelled operation reads: last attempt time, dead-letter flag and reason.
- `TopicRouter::replay`: it re-sends or re-schedules each pending record through `send`, and would add a counting loop.
- The idle pool of workers: any idle worker of the topic may be chosen by the receive loop.
- The flume and tokio-mpmc queues: the same contract as the modelled one, with one channel for all topics.
- Shutdown, audit, metrics, tracing, gRPC, the command-line tool, configuration and macros.
