# A verified model of the ROS 2 / oneM2M bridge

The bridge carries ROS 2 topics, services and actions to a oneM2M server and back. This project models the
parts of it whose correctness rests on state and on interleaving, and the algorithms they lean on, and proves
what they promise.

**Outbound delivery** (`Operations`, `Client`, `OutboundQueue`, `QueueRuns`, `Spool`, `Outbound`, `Delivery*`).
Operations wait in a bounded queue of three classes: terminal ones are never dropped, observations either
coalesce per key or push the oldest out. Workers claim operations so that one robot interface has one in flight;
what cannot be delivered goes to a durable, bounded spool that one worker replays. `OutboundQueue`, `SpoolStore`
and `OutboundProcessor` are classes with the loops of the program, each proved against functions on values.
`Delivery` is a machine whose actions are single steps of single threads, built from the same functions; its
theorems speak of every run of any number of producers and workers, with replay and orderly stop. Sends are
nondeterministic: the answer is a parameter of the step. `OutboundRuns` ties the two: a claim, a replay and
a stop that nobody disturbs are runs of the machine with the results the loops have.

**Inbound admission** (`Ledger`, `InboundQueue`, `Inbound*`, `CatchUp`). Notifications and the catch-up sweep
feed one admission ledger and one queue. A crash loses the queue and keeps the tables; a boot sweep repairs the
rows; a persisted marker bounds what a sweep reads again. `Inbound` is a machine in which each statement, queue
call and test is a step of its own; one container with its interface is followed in detail, all other interfaces
share the ledger and the queue with it.

**Transactions** (`Transactions`, `TransactionRuns`). Service and action transactions move through a closed
vocabulary. Callbacks, timeouts, vanished servers, shutdown and restart race for the state.

**QoS negotiation** (`Qos*`), **message transcoding** (`Transcoder*`, `Base64`, `Values`) and three small
algorithms (`Projection`, `TokenBucket`, `SelfEcho`) are modelled as functions, with methods for the parts the
program writes as loops, and related to independent descriptions: greatest and least elements of the
request-versus-offer order of DDS, the set of values that fit a message type, the sub-document order, the bounds
on any window of calls, an injection from suppressed samples to publishes.

## How to read the machines

A machine is a datatype `State`, a datatype `Action`, a predicate `Enabled` and a function `Apply`; `Legal` says
that a sequence of actions is a run and `End` gives its last state. Some state fields are history: what was
given, consumed, evicted or lost, which dispatches were won, which notifications had a good verdict. They are
only written by the machine, so that theorems can speak of whole runs.

Theorems speak of functions such as `Judge`, `OrderKeyOf`, `Stop` or `ChooseKind`. What these mean is stated apart
from their definitions, in the fields of operations, answers, notifications and profiles: `DeliveredIff` and
`RejectedIff`, `SameKeyIff`, `StopsAtRefusal`, `ObserveByName` with its companions in `QosNames`, `IntReads`,
`AdmitsIff` and others in the table below.

## Results that are not what one might expect

- A terminal operation can be lost. An answer that looks like a success but is not accepted makes `classify`
  raise, and the worker swallows the exception (`src/ipe/runtime/outbound.py:302`). The queue's documentation
  promises that terminal operations are never dropped; `LostIsWhatRaised` says exactly which are, `RaisesIff`
  which answers cause it, and `UnexplainedAnswerLoses` gives a run. The replay is not affected: its row stays.
- At most one dispatch per request holds only while the row is kept; `CleanupAllowsAgain` dispatches a request
  again after its row was cleaned up, and the bound of `AtMostOnce` counts exactly that.
- The comment on `sweep_boot` says that the catch-up sweep re-accepts what a crash left queued. `CrashStrands`
  gives a run in which the marker has already gone past such a request. `ReacceptedIffAhead` is the exact
  condition: a complete sweep re-accepts it exactly if one of its notifications was not below the marker when the
  process crashed. `BehindStaysOverflowed` says that any other stays overflowed for good; `OverflowStaysAhead`
  that without a crash nothing that overflowed falls behind.
- Durations are cut to whole milliseconds, and 0 ms is passed on as unset, so negotiation fits the peers at
  millisecond granularity only; `ObservedMetAtNsIff` and `CommandServesAtNsIff` say exactly when it does at
  nanosecond granularity.
- At most one reply per request does not mean one per answered request: a crash between taking an answer and
  enqueuing it loses the reply, and `CrashLosesReply` shows that nothing brings it back. `AtMostOneReply` has the
  equivalence without a crash.
- Sanitizing is meant to make a payload fit for JSON; it lets bytes through, and `SanitizedIsJsonSafe` says that
  this is the only exception.
- The final persist of the queue raises on the first terminal operation that JSON cannot carry and leaves those
  behind it unstored; `PersistPending` says which.
- An operation that names no robot or interface is not restored from the spool under its own order key;
  `RestoredIffStorable` is the exact condition.

## Model

| member | source | states |
|---|---|---|
| DeliveryTheorems.NothingVanishes | src/ipe/runtime/outbound.py:281-377 | Over every run of producers, workers, replay and stop: what the spool held at the start plus all that was given to put_terminal is, as a multiset, what is queued, refused on its way to the spool, held, stored in rows that decode to the same operation, consumed, evicted, or lost. |
| DeliveryTheorems.StopPersistsAll | src/ipe/runtime/outbound.py:178-187 | After an orderly stop the queue is empty, nothing is refused or held, and everything neither consumed, evicted nor lost is in the spool. |
| DeliveryTheorems.LostIsWhatRaised | src/ipe/runtime/outbound.py:298-303 | What is lost, or about to be, is exactly the live terminal operations whose send raised; nothing else is ever lost. |
| DeliveryTheorems.NoLoss | src/ipe/onem2m/client.py:120-162 | If every answer is accepted or explained by an error code and no foreign error escapes, no terminal operation is lost in any run. |
| DeliveryTheorems.UnexplainedAnswerLoses | src/ipe/onem2m/client.py:143-144 | A creation answered 200 with code 2000 is lost: a concrete run ends with it neither queued, held, stored nor consumed. |
| DeliveryTheorems.ConsumedWasSettled | src/ipe/runtime/outbound.py:309-337 | Every consumed operation had its own accepted send, its own final rejection, or its own expiry. |
| Delivery.ExpiredIff | src/ipe/runtime/outbound.py:316-317 | An operation expires at its finite time, at once at minus infinity, and never without one. |
| DeliveryTheorems.SpoolingNeverBlocks | src/ipe/runtime/outbound.py:260-267 | Whatever is refused, queued as terminal or to be spooled by a worker can always be encoded, so no operation sticks on its way to the spool. |
| DeliveryTheorems.NoLostWakeup | src/ipe/runtime/outbound.py:355-377 | Whenever rows are stored, the replay is under way, the pending flag is set, or a thread is about to set it. |
| DeliveryLocks.MutualExclusion | src/ipe/runtime/queues.py:221-269 | In every run the active keys are exactly the keys of the operations held by workers or by the replay, and no two hold the same key. |
| DeliveryLocks.ClaimsWhatIsFree | src/ipe/runtime/queues.py:221-255 | In every reachable state no two operations in flight name the same robot and interface, and a claim finds an operation exactly if some queued one names a robot and interface that no operation in flight has. |
| DeliveryInvariants.ActionSound | src/ipe/runtime/outbound.py:260-267 | Every step keeps the class of each lane, the stages of the workers, the identity of listed rows, the wakeup, and the emptiness after a stop. |
| DeliveryBalance.ActionBalances | src/ipe/runtime/outbound.py:281-377 | Every step keeps the balance of each single operation. |
| DeliveryLedger.SpooledBalances | src/ipe/runtime/state.py:496-534 | Spooling moves one operation into the store or past it: contents plus evictions grow by exactly that operation. |
| DeliveryLedger.BagWithout | src/ipe/runtime/state.py:557-564 | Deleting a row takes out its operation and no other. |
| Outbound.FinishedIffReached | src/ipe/runtime/outbound.py:309-337 | A delivery is finished exactly if some pass, all earlier ones being recoverable failures without interruption, finds the operation expired or gets it accepted or rejected for good. |
| Outbound.LoopRefinesSteps | src/ipe/runtime/outbound.py:309-337 | The retry loop and the single steps of the delivery machine end in the same outcome. |
| OutboundRuns.RetainedIff | src/ipe/runtime/outbound.py:309-337 | A delivery under way is kept for later exactly at a stop, on an answer left to the reconciler, or when the last pass allowed fails in a way that may pass; a replay has one pass. |
| OutboundRuns.WorkIsARun | src/ipe/runtime/outbound.py:294-307 | One claim run alone is a run of the machine from the claim to its release: same outcome as the retry loop, the queue without the operation, a kept terminal operation in the spool and the replay woken. |
| OutboundRuns.ReplayIsARun | src/ipe/runtime/outbound.py:355-377 | A replay run alone is a run of the machine: it takes up the twenty oldest rows, leaves what the loop over the listing leaves, gives every claim back, and is to come again exactly if rows remain. |
| OutboundRuns.ReplayBeginsAndStops | src/ipe/runtime/outbound.py:281-293 | A replay begins exactly if the first worker is idle and it has been woken, which clears the flag; a stop ends it between two rows. |
| OutboundRuns.RefusedIsSpooled | src/ipe/runtime/outbound.py:403-405 | An operation that finds the queue full is spooled by its producer and the replay woken, and nothing is left under way. |
| OutboundRuns.StopIsARun | src/ipe/runtime/outbound.py:166-187 | An orderly stop of idle workers is a run of the machine: they leave, are joined, and the spool is what the loop over the queue stores. |
| Outbound.RecoverOncePerOutage | src/ipe/runtime/outbound.py:269-279 | A recovery is requested exactly when an outage ends, so at most once per delivery and never while the remote side is up. |
| Outbound.DeliveryTellsLink | src/ipe/runtime/outbound.py:309-337 | What a whole delivery tells: the operation is reported exactly if a pass rejects it for good; the link goes down exactly if the last pass allowed fails in a way that may pass, and comes up exactly if a pass is answered otherwise; recovery and reconciliation are requested exactly then and on a policy-dependent answer. |
| Outbound.AcceptedIsSilent | src/ipe/runtime/outbound.py:318-320 | An accepted delivery leaves the link up, requests a recovery exactly if it was down, and reports nothing. |
| Outbound.ReplayDeletesSettledPrefix | src/ipe/runtime/outbound.py:355-377 | A replay deletes a prefix of the listed rows and nothing else, up to a stop, a busy interface or the first row to keep. |
| Outbound.BeforeEndSettled | src/ipe/runtime/outbound.py:357-371 | Each row of that prefix could not be read, or its operation was sent, rejected or expired. |
| Outbound.PersistKeepsOrder | src/ipe/runtime/outbound.py:178-187 | If every terminal operation can be encoded and the bounds allow it, persisting adds one row per terminal operation in the order of the queue and evicts none. |
| Outbound.OutboundProcessor.SpoolOp | src/ipe/runtime/outbound.py:260-267 | Stores the encoded operation under its key and sets the pending flag; stores nothing if the operation cannot be encoded. |
| Outbound.OutboundProcessor.PutTerminal | src/ipe/runtime/outbound.py:403-405 | A terminal operation goes to the queue if there is room, else to the spool. |
| Outbound.OutboundProcessor.DeliverOp | src/ipe/runtime/outbound.py:309-337 | The retry loop computes the specified outcome and leaves the specified link state. |
| Outbound.OutboundProcessor.WorkOnce | src/ipe/runtime/outbound.py:294-307 | One claim: the link is as the retry loop leaves it; a retained terminal operation that can be encoded is back in the spool, every other outcome leaves the spool alone; the claim is given back in each case. |
| Outbound.OutboundProcessor.DrainSpool | src/ipe/runtime/outbound.py:355-377 | The replay leaves exactly the specified rows, gives every claim back, and sets the pending flag if rows remain. |
| Outbound.OutboundProcessor.PersistOne | src/ipe/runtime/outbound.py:180-186 | One turn takes the head of the queue and leaves the rest; it keeps the final contents of the spool the same goal, or raises on a terminal operation that cannot be encoded. |
| Outbound.OutboundProcessor.PersistPending | src/ipe/runtime/outbound.py:178-187 | Stores the terminal operations in queue order and empties the queue; raises exactly if a terminal operation cannot be encoded, and then stores what came before it and leaves what comes behind. |
| Client.RaisesIff | src/ipe/onem2m/client.py:120-162 | A send raises exactly on a foreign error or on an answer neither accepted nor explained by an error code; it is repeated exactly on a failure that may pass (recoverable transport error, code 5000 or more but 5207, or without a code a status of 500 or more); it is kept for the reconciler exactly on codes 4004, 4103, 4105 or, without a code, statuses 403, 404, 409. |
| Client.DeliveredIff | src/ipe/runtime/outbound.py:41-55 | In fields: a send is delivered exactly if it can be built and is answered 201, or 409 or 4105 for a named resource, for a creation; with a 2xx status and no code of 4000 or more for an update. |
| Client.RejectedIff | src/ipe/runtime/outbound.py:41-55 | In fields: a send is rejected for good exactly if the request cannot be built (bytes in a creation, no attribute for a container, no labels, an unknown kind), if it fails with a lasting error, or if the answer is not that the resource is there and its code (its status where it has none) is that of a lasting error. |
| Client.UnexplainedAnswers | src/ipe/onem2m/client.py:141-157 | An answer raises exactly if it has no error code (no error status where there is no code), and is, for a creation, neither 201 nor a sign that the resource is there; for an update, outside the 2xx range. |
| Client.DelayIsNear | src/ipe/onem2m/client.py:165-197 | The i-th delay lies within the jitter share of min(base * factor^i, max), and is exactly that without jitter. |
| Client.NextCeiling | src/ipe/onem2m/client.py:190-196 | Capping the running delay at every step equals capping the closed form once. |
| Client.BackoffDelays | src/ipe/onem2m/client.py:165-197 | One delay per retry, each as specified; an error exactly for a bad jitter, base, factor or maximum; empty for no retries. |
| Operations.RestoredIffStorable | src/ipe/runtime/outbound.py:58-94 | Encoding and decoding give the operation back, with its order key, exactly if it names robot, interface and view, its expiry is finite, its content is a JSON object, and a label update has a list of labels. |
| Operations.JsonKeepsExactly | src/ipe/runtime/outbound.py:58-60 | JSON text keeps exactly the values that hold no tuple and no bytes. |
| Operations.WritableIff | src/ipe/runtime/outbound.py:58-60 | JSON text can be made of exactly the values that hold no bytes. |
| Operations.NamelessLosesItsKey | src/ipe/runtime/outbound.py:81-88 | An operation without a robot comes back under another order key. |
| Operations.SameKeyIff | src/ipe/runtime/queues.py:122-131 | Two operations are serialized exactly if they name the same robot and interface, or neither names both. |
| Operations.SameLatestKeyIff | src/ipe/runtime/queues.py:108-119 | Two observations coalesce exactly if both name a robot and an interface and agree on these and the view. |
| Operations.LegacyKeySplitsIff | src/ipe/runtime/outbound.py:66-94 | A row whose identity is only in its key is decoded to an operation of the robot, interface and view it was stored for exactly if robot and interface hold no colon. |
| Operations.DecodedIff | src/ipe/runtime/outbound.py:65-80 | A row is decoded exactly if it is an object with a text as path and an object as content, a kind that is text or missing, labels if it needs them, and an expiry that is missing or reads as a finite number. |
| Operations.DecodedFields | src/ipe/runtime/outbound.py:74-94 | What a row names is taken as it is; a kind or a flag it lacks is that of a plain creation, and an identity it lacks is the path between dashes where its key has none. |
| OutboundQueues.ClaimOrder | src/ipe/runtime/queues.py:241-255 | A claim takes the first unblocked operation of the highest class that has one; nothing is taken exactly when every queued key is active. |
| OutboundQueues.PopFindsOpen | src/ipe/runtime/queues.py:241-255 | A claim finds an operation exactly if some queued one is not blocked, and answers such a one. |
| OutboundQueues.OutboundQueue.constructor | src/ipe/runtime/queues.py:137-156 | A new queue is empty and has the given bounds. |
| OutboundQueues.OutboundQueue.Enqueue | src/ipe/runtime/queues.py:158-192 | The put of each class: refused, coalesced in place, or pushing the oldest out and counting it. |
| OutboundQueues.OutboundQueue.GetNowait | src/ipe/runtime/queues.py:194-219 | Takes the oldest operation of the highest non-empty class. |
| OutboundQueues.OutboundQueue.PopClaimable | src/ipe/runtime/queues.py:241-255 | The three scans find the operation the specification takes and remove only it. |
| OutboundQueues.OutboundQueue.Claim | src/ipe/runtime/queues.py:221-239 | Takes a claimable operation and makes its key active. |
| OutboundQueues.OutboundQueue.TryClaim | src/ipe/runtime/queues.py:257-264 | Succeeds exactly if the key is not active, and then makes it so. |
| OutboundQueues.OutboundQueue.Release | src/ipe/runtime/queues.py:266-269 | Makes the key inactive and changes nothing else. |
| QueueRuns.InterfaceOrder | src/ipe/runtime/queues.py:158-255 | Over every sequence of calls, for each interface: what was put into the terminal or bulk lane is what left it followed by what is queued, in order. |
| QueueRuns.LatestIsLastValue | src/ipe/runtime/queues.py:172-185 | Over every sequence of calls the latest lane is the last-value map of its puts and departures, in the order in which the keys entered. |
| QueueRuns.ClaimIsNewest | src/ipe/runtime/queues.py:246-250 | A claim from the latest lane hands out the newest put for its key since the key last left. |
| QueueRuns.OverwriteRefines | src/ipe/runtime/queues.py:180-185 | Overwriting a present key keeps its rank and every other value. |
| QueueRuns.BoundedAndCounted | src/ipe/runtime/queues.py:158-208 | The lanes stay within their bounds, and accepted puts equal those taken, overwritten, counted as dropped, and queued. |
| Spool.TrimmedIsLongestFit | src/ipe/runtime/state.py:515-534 | Trimming leaves the longest suffix that fits both bounds, or the newest row alone if none fits. |
| Spool.SpoolStore.Put | src/ipe/runtime/state.py:496-513 | Replaces the stored observation of the key, inserts, trims, and answers exactly how many rows the bounds cost. |
| Spool.SpoolStore.TrimSpool | src/ipe/runtime/state.py:515-534 | The batched scan terminates and drops exactly what the one-row-at-a-time rule drops. |
| Spool.ScanBatch | src/ipe/runtime/state.py:522-531 | One batch of 256 rows advances the scan and stops as soon as the rest fits. |
| Spool.SpoolStore.Oldest | src/ipe/runtime/state.py:536-555 | At most the limit of stored rows of the class asked for, in id order; a row of the class is left out only if the limit is reached and every row answered is older. Without a class the answer is a prefix of the spool. |
| Spool.SpoolStore.Delete | src/ipe/runtime/state.py:557-564 | Deletes exactly the rows with the given ids and counts them. |
| Spool.WithoutKeyHas | src/ipe/runtime/state.py:507-508 | Coalescing removes exactly the rows of the same class and key. |
| Spool.CoalescedHas | src/ipe/runtime/state.py:506-508 | An insertion removes exactly the stored observations of its key, and only if it is an observation with a key. |
| Spool.WithoutIdsHas | src/ipe/runtime/state.py:557-564 | Deletion removes exactly the rows with the given ids. |
| InboundOnce.AtMostOnce | src/ipe/runtime/state.py:263-368 | From any tables and over every run with crashes and boot sweeps, a request is dispatched at most once more than its row was cleaned up, so never twice while the row is kept. |
| InboundOnce.HistoryCounts | src/ipe/runtime/state.py:299-307 | What the bound counts: a dispatch is a row going from queued to dispatched, a clean-up a row that goes, in every step. |
| InboundOnce.CleanupAllowsAgain | src/ipe/runtime/state.py:573-588 | Once its row is cleaned up, a request that arrives again is dispatched again: the bound is reached. |
| InboundAgreement.LedgerAndQueueAgree | src/ipe/runtime/inbound.py:163-243 | After sweep_boot every queued row has an entry; after a clean one, if every finish ends a row won since its last clean-up, the entry is unique and every entry has its row queued. |
| InboundAgreement.WinsAreTame | src/ipe/runtime/state.py:299-326 | What has been won since its last clean-up is never queued or overflowed, over every run, so such finishes cannot hit a waiting row. |
| InboundAgreement.NoOrphans | src/ipe/runtime/state.py:289-326 | The first half holds whatever finishes come, late or repeated. |
| InboundAgreement.FlagsMean | src/ipe/runtime/state.py:338-368 | The flag that sweep_boot has run is up exactly if it has, since the last crash. |
| InboundAgreement.MarkAgrees | src/ipe/runtime/inbound.py:197-201 | A refused put leaves no queued row behind. |
| InboundWatermark.MarkerIsWatermark | src/ipe/onem2m/catchup.py:65-92 | The marker never goes back, and every notification below it has had a verdict other than overflow or denied, over every run including crashes. |
| InboundWatermark.ReachedSeen | src/ipe/onem2m/catchup.py:72-90 | Everything older than the notification a sweep has reached is seen. |
| InboundWatermark.SweepNeverStuck | src/ipe/onem2m/catchup.py:74-92 | A sweep that is not refused can always go on: past an older notification, to an admission, or to its end. |
| InboundWatermark.RefusalEndsSweep | src/ipe/onem2m/catchup.py:80-92 | Once a notification of a sweep is refused the sweep goes no further in any run, and its end sets the marker to what it had completed before. |
| InboundOverflow.OverflowStaysAhead | src/ipe/onem2m/catchup.py:72-92 | Without crash and cleanup and with steady routes, every overflowed row comes from a stored notification and none of its notifications is below the marker. |
| InboundOverflow.CrashStrands | src/ipe/runtime/state.py:338-368 | The claim that catch-up re-accepts what a crash left queued fails: a concrete run ends with the row overflowed and its notification below the marker. |
| InboundRecovery.SweepReaccepts | src/ipe/onem2m/catchup.py:72-92 | From every state with no admission under way: once a sweep is through its listing, no stored notification that was not below the marker has its row overflowed or missing. |
| InboundRecovery.SweepMoves | src/ipe/onem2m/catchup.py:74-92 | A sweep moves on by one exactly over an old notification or with a good verdict of its own for the one it is at. |
| InboundRecovery.SweepLasts | src/ipe/onem2m/catchup.py:65-92 | There is a sweep exactly from its start until it ends, is given up, or the process crashes. |
| InboundRecovery.ReacceptedIffAhead | src/ipe/runtime/state.py:338-368 | From every state in which a process may crash: a request left queued is overflowed after sweep_boot, and a complete sweep takes it out of overflow exactly if one of its notifications was not below the marker at the crash. |
| InboundRecovery.BehindStaysOverflowed | src/ipe/onem2m/catchup.py:76-79 | If all its notifications were below the marker at the crash, the request stays overflowed through every later run of sweeps, crashes and admissions of other requests. |
| CatchUp.MarkerPassesOnlySeen | src/ipe/onem2m/catchup.py:65-92 | One sweep moves the marker over nothing but what was below it before or got a good verdict in this sweep. |
| CatchUp.StopsAtRefusal | src/ipe/onem2m/catchup.py:79-84 | The scan stops exactly at the first notification, not older than the marker, that overflows or is denied. |
| CatchUp.UnrefusedSweepCompletes | src/ipe/onem2m/catchup.py:74-92 | If no listed notification overflows or is denied, the sweep gets through: the marker becomes the latest time listed or stays, and the count is that of the accepted ones; duplicates do not hold it up. |
| CatchUp.SortSorts | src/ipe/onem2m/catchup.py:73-73 | The sorted listing is in order and is the same listing. |
| CatchUp.SortedByTime | src/ipe/onem2m/catchup.py:73-73 | The order is by time, those without one first, and by resource id at the same time. |
| CatchUp.CatchUpSweeper.InitializeMarker | src/ipe/onem2m/catchup.py:38-43 | A path without a marker takes over the older cursor once. |
| CatchUp.CatchUpSweeper.MarkProcessed | src/ipe/onem2m/catchup.py:45-50 | The cursor of accepted notifications only moves forward and leaves the marker alone. |
| CatchUp.CatchUpSweeper.SweepOne | src/ipe/onem2m/catchup.py:65-92 | Scans the sorted listing up to the first refusal; marker, cursor of accepted notifications and count come from what was scanned before it. |
| Ledgers.Ledger.TryInsert | src/ipe/runtime/state.py:271-280 | The insertion succeeds exactly on an unknown key. |
| Ledgers.Ledger.TryReaccept | src/ipe/runtime/state.py:281-287 | The conditional update succeeds exactly on an overflowed row. |
| Ledgers.Ledger.Admit | src/ipe/runtime/state.py:263-287 | A request is queued exactly if it was unknown or overflowed; otherwise nothing changes. |
| Ledgers.Ledger.MarkOverflow | src/ipe/runtime/state.py:289-297 | Moves a queued row to overflow, and no other. |
| Ledgers.Ledger.CasDispatch | src/ipe/runtime/state.py:299-307 | Wins exactly on a queued row. |
| Ledgers.Ledger.FinishRow | src/ipe/runtime/state.py:309-326 | Ends an active row; an ended row never changes. |
| Ledgers.Ledger.Boot | src/ipe/runtime/state.py:338-368 | Answers the queued and dispatched rows, moves them to overflow and unknown, row by row, and leaves the others alone. |
| Ledgers.Ledger.Cleanup | src/ipe/runtime/state.py:573-582 | Deletes exactly the ended admissions that are old enough and counts them. |
| InboundQueues.BatchIsFull | src/ipe/runtime/queues.py:86-96 | A batch is as long as the budget allows and touches the normal lane only once the control lane is empty; no entry is lost or reordered. |
| InboundQueues.InboundQueue.PutNormal | src/ipe/runtime/queues.py:70-76 | Appends to the normal lane, or refuses when it is full. |
| InboundQueues.InboundQueue.PutControl | src/ipe/runtime/queues.py:78-84 | Appends to the control lane, or refuses when it is full. |
| InboundQueues.InboundQueue.GetBatch | src/ipe/runtime/queues.py:86-96 | The two loops take exactly the batch and leave exactly the rest. |
| InboundProcessing.WinsAreDistinct | src/ipe/runtime/inbound.py:217-243 | One drain dispatches a request once, even if the batch holds two entries for it. |
| InboundProcessing.WaitingEntryWins | src/ipe/runtime/inbound.py:240-246 | A waiting request with an entry in the batch is dispatched. |
| InboundProcessing.InboundProcessor.Admit | src/ipe/runtime/inbound.py:163-203 | The verdict, the row with its event id and time, the lane and the cursor an admission leaves, for every route, staging, own and known case. |
| InboundProcessing.AdmitsIff | src/ipe/runtime/inbound.py:179-203 | Known exactly if the row is there and not overflowed; otherwise accepted exactly if the lane of the event (control for a cancellation) has room, and then appended to it. |
| InboundProcessing.AdmitIsARun | src/ipe/runtime/inbound.py:163-203 | An admission run alone is the steps Begin to PutEvent or MarkRow of the admission machine in a row, with the same table and lanes. |
| InboundProcessing.InboundProcessor.Drain | src/ipe/runtime/inbound.py:217-246 | Dispatches exactly the winning events of a batch, and ends as failed and untracks exactly the requests whose handler raised. |
| InboundProcessing.DrainTells | src/ipe/runtime/inbound.py:217-246 | A waiting request with an entry in the batch is dispatched, and ends as failed exactly if the handler of its first entry raises; any other request is left alone. |
| InboundProcessing.DrainIsARun | src/ipe/runtime/inbound.py:217-246 | A drain run alone is the drain and the dispatches of the admission machine for the whole batch: same table, same lanes, and the same wins. |
| InboundProcessing.InternalIsNext | src/ipe/runtime/queues.py:70-96 | One of the bridge's own events, put on an empty queue, is the next batch. |
| InboundProcessing.InboundProcessor.Finish | src/ipe/runtime/inbound.py:1012-1018 | Untracks the request for its interface only, and ends its row. |
| InboundProcessing.InboundProcessor.ServiceDone | src/ipe/runtime/inbound.py:530-559 | The callback that wins the state enqueues the response and finishes; a loser, or one whose transaction is gone, changes nothing. |
| InboundProcessing.InboundProcessor.GoalResult | src/ipe/runtime/inbound.py:657-683 | The result callback that wins the state enqueues the result and finishes; a loser, or one whose transaction is gone, changes nothing. |
| InboundProcessing.InboundProcessor.GoalFeedback | src/ipe/runtime/inbound.py:631-655 | Feedback of a tracked goal that sampling lets through takes the next number of its transaction, 0 without one; any other changes nothing. |
| InboundProcessing.InboundProcessor.TerminateInflight | src/ipe/runtime/inbound.py:1104-1135 | Every tracked request of a vanished interface that has a transaction is ended and untracked, one without stays tracked, and no settled transaction is touched. |
| TransactionRuns.OutcomeIsFinal | src/ipe/runtime/state.py:398-413 | After any run a terminal transaction keeps its state through whatever comes after. |
| TransactionRuns.AtMostOneReply | src/ipe/runtime/inbound.py:530-559 | At most one response or result per request, only for an answered transaction; without a crash and with a path exactly one if and only if it was answered. |
| TransactionRuns.AnsweredIsReplied | src/ipe/runtime/inbound.py:530-559 | A request started, answered, replied to and finished leaves one reply if there is a path, and touches nothing else. |
| TransactionRuns.TimeoutSilencesCallback | src/ipe/core/transaction.py:91-105 | Once a request has timed out a late callback changes nothing. |
| TransactionRuns.CrashLosesReply | src/ipe/runtime/inbound.py:530-559 | A crash between taking an answer and enqueuing it loses the reply for good: in every continuation the request is answered and has no reply. |
| TransactionRuns.FeedbackCountsUp | src/ipe/runtime/inbound.py:631-655 | A goal's feedback operations are numbered 1..n in order over every run, and none follows the finish that ended its tracking. |
| TransactionRuns.TrackedExactly | src/ipe/runtime/inbound.py:1012-1018 | Until a crash, the tracked requests are exactly those started and not finished. |
| TransactionRuns.RunVocabulary | src/ipe/core/transaction.py:28-30 | Every stored state stays in the vocabulary of its kind. |
| Transactions.TerminalStays | src/ipe/runtime/state.py:398-424 | No transaction block changes the state of a terminal row. |
| Transactions.ServiceVocabulary | src/ipe/core/vocab.py:17-37 | The vocabulary of services by name: which states are active, and which are terminal. |
| Transactions.ActionVocabulary | src/ipe/core/vocab.py:17-37 | The vocabulary of actions by name: which states are active, and which are terminal. |
| Transactions.TransactionStore.Begin | src/ipe/runtime/state.py:372-396 | Inserts exactly for a new correlation id; a negative timeout is an error. |
| Transactions.TransactionStore.Update | src/ipe/runtime/state.py:398-413 | Moves exactly an active row to a state of its vocabulary; any other state is an error, a terminal or missing row is left alone. |
| Transactions.TransactionStore.NextSeq | src/ipe/runtime/state.py:415-424 | Draws the next number of the row, 0 for a missing one. |
| Transactions.TransactionStore.SweepTimeouts | src/ipe/core/transaction.py:91-105 | Moves to timeout exactly the active transactions of the kind that have a timeout and started that long ago, answers them, and changes no other row. |
| Transactions.TransactionStore.Cleanup | src/ipe/runtime/state.py:583-588 | Deletes exactly the terminal transactions that are old enough and counts them. |
| QosTheorems.ObserveIsGreatestCompatible | src/ipe/qos/engine.py:17-57 | With nothing explicit, every negotiated axis with a known offer gets the strongest request that all known offers meet. |
| QosNames.ObserveByName | src/ipe/qos/engine.py:17-57 | By name, explicit or not: a kind is the weaker one if some offer or an explicit setting has it, else the stronger one if one has that, else as configured; an explicit duration is kept, any other is the longest offered. |
| QosNames.ExplicitIsGreatestCompatible | src/ipe/qos/engine.py:29-36 | An explicit kind is asked for in the strongest value, no stronger than configured, that every known offer meets; so as configured exactly if the offers meet that. |
| QosTheorems.LatchLossIsReported | src/ipe/qos/engine.py:46-56 | A latched reader that loses its history is reported, and only then. |
| QosTheorems.GuardAfterObserve | src/ipe/qos/engine.py:83-102 | After observing, the guard objects only to an explicit duration, exactly when it is tighter than some offer. |
| QosTheorems.GuardIsSilentIffCompatible | src/ipe/qos/engine.py:83-102 | The guard has no events exactly if the spec matches every known offer. |
| QosNames.GuardByName | src/ipe/qos/engine.py:83-102 | By name: a kind is strict exactly if it is the stronger one and some offer has the weaker, and is demoted to that; a duration exactly if some offer is longer, and is relaxed to the longest. |
| QosNames.NobodyThere | src/ipe/qos/engine.py:24-25 | With nobody to negotiate with the configuration stands, and the event says which side is missing. |
| QosTheorems.DemotionIsLeast | src/ipe/qos/engine.py:83-102 | The demoted spec is the strongest compatible one not stronger than the input, and a fixed point. |
| QosTheorems.CommandIsLeastUpgrade | src/ipe/qos/engine.py:60-80 | The result is the weakest offer at least as strong as configured that serves every known request. |
| QosTheorems.CommandByField | src/ipe/qos/engine.py:60-80 | The upgrade is reported exactly if the result differs, and the lifespan event exactly for a latched result without a lifespan. |
| QosNames.CommandByName | src/ipe/qos/engine.py:60-80 | By name: a kind becomes the stronger one exactly if it or some request is; a duration becomes the shortest requested if that is shorter than configured. |
| QosTheorems.CommandIsIdempotent | src/ipe/qos/engine.py:60-80 | Negotiating again changes nothing and reports no upgrade. |
| QosTheorems.ObserveIgnoresOrder | src/ipe/qos/engine.py:17-57 | Order and repetition of the offers do not matter. |
| QosTheorems.CommandIgnoresOrder | src/ipe/qos/engine.py:60-80 | Order and repetition of the requests do not matter. |
| QosTheorems.GuardIgnoresOrder | src/ipe/qos/engine.py:83-102 | Order and repetition do not matter to the guard. |
| QosNanoseconds.TruncationBreaksNanoseconds | src/ipe/qos/_shared.py:23-35 | A concrete offer of 1.5 ms is asked for 1 ms, which it does not meet: the claim fails at nanosecond granularity. |
| QosNanoseconds.ObservedMetAtNsIff | src/ipe/qos/_shared.py:23-35 | At nanosecond granularity the negotiated request meets every offer, on either axis, exactly if each longest offer is infinite, a whole number of milliseconds, or shorter than one (cut to 0, which is passed on as unset). |
| QosNanoseconds.CommandServesAtNsIff | src/ipe/adapter/qos.py:36-42 | At nanosecond granularity the negotiated offer serves every request, on either axis, exactly if all are infinite, or neither the configured duration nor any finite request is 0 ms, which is applied as unset. |
| QosTheorems.ObserveKindIsGreatest | src/ipe/qos/_shared.py:67-80 | The chosen kind is the greatest that every known offer meets. |
| QosTheorems.ExplicitKindIsGreatest | src/ipe/qos/_shared.py:67-80 | With an explicit value, the chosen kind is the greatest that is no stronger and that every known offer meets. |
| QosTheorems.CommandKindIsLeast | src/ipe/qos/_shared.py:67-80 | The chosen kind is the least that serves every known request and is not below the configured one. |
| QosTheorems.MaxOrNoneIs | src/ipe/qos/_shared.py:48-53 | The longest duration, infinite if any is. |
| QosTheorems.MinFiniteIs | src/ipe/qos/_shared.py:56-59 | The shortest finite duration, infinite if none is. |
| QosNames.DurationReads | src/ipe/qos/_shared.py:23-35 | A duration is read as infinite exactly if unset, 0 or at least 2^63 - 1 nanoseconds, and else cut to whole milliseconds. |
| QosTheorems.GuardDurationIsExact | src/ipe/qos/_shared.py:96-99 | The guarded duration is the least relaxation that meets every offer. |
| QosNegotiation.ReconcileCommand | src/ipe/qos/engine.py:60-80 | The loop over the policies computes the specified upgrade and its events. |
| QosNegotiation.StrictnessGuard | src/ipe/qos/engine.py:83-102 | The loop over the policies computes the specified demotion and its events, for every mode. |
| QosEcho.PrintedSpecParsesBack | src/ipe/qos/codec.py:43-57 | The printed attributes parse over any base to the spec under the profile of the base, exactly for the valid specs. |
| QosEcho.OwnRecordIsUnchanged | src/ipe/runtime/inbound.py:845-859 | The notification of the bridge's own record never rebinds, and is rejected exactly if updates are not allowed. |
| QosEcho.UpdateIsLocal | src/ipe/qos/requests.py:106-111 | An accepted update changes only the fields it names. |
| QosEcho.UpdateKeepsValid | src/ipe/qos/requests.py:22-54 | An accepted update keeps a valid spec valid. |
| QosEcho.UpdateIsIdempotent | src/ipe/qos/requests.py:22-54 | An accepted update is already in force when it arrives again. |
| QosEcho.ParsedIsMerged | src/ipe/qos/requests.py:22-54 | Parsing succeeds exactly on attributes in their domains that leave no missing lease, and then merges them into the base. |
| QosText.AcceptedUpdate | src/ipe/qos/requests.py:22-54 | An update is accepted exactly if every attribute it names is written as it must be, and it leaves no manual liveliness without a lease. |
| QosText.UpdateSets | src/ipe/qos/requests.py:22-54 | An accepted update sets each attribute it names to what is written there, in letters of either case, and leaves the others. |
| QosText.PrintedText | src/ipe/qos/codec.py:43-57 | What is printed of a valid spec spells its values in capitals, and infinite durations as INF. |
| QosCodec.ParseCfUpdate | src/ipe/qos/requests.py:22-54 | The loops with early returns compute the specified parse, with the first error in order. |
| TranscoderRoundTrip.RoundTrip | src/ipe/adapter/messages.py:122-390 | from_canonical(to_canonical(m)) = m for every type tree, both integer settings, and every value that fits its type. |
| TranscoderRoundTrip.AcceptedFits | src/ipe/adapter/messages.py:258-390 | Whatever from_canonical accepts has every leaf and every length within its declared bounds, and only known fields. |
| TranscoderRoundTrip.FitsIffWritable | src/ipe/adapter/messages.py:258-390 | The values that fit a type are exactly those from_canonical can produce. |
| TranscoderLeaves.BasicWrites | src/ipe/adapter/messages.py:300-353 | What an accepted leaf is written as: an octet as a byte string of one, a number as one of the kind of its slot. |
| TranscoderLeaves.AcceptedIff | src/ipe/adapter/messages.py:258-390 | from_canonical accepts exactly: every leaf in its domain, every text and sequence within its bound, 64-bit integers as text only where that is asked for, and no member the message does not have. |
| TranscoderRoundTrip.IntReturns | src/ipe/adapter/messages.py:329-353 | Every integer that fits its type returns, whether it travels as a number or as text. |
| TranscoderLeaves.BooleanReads | src/ipe/adapter/messages.py:161-164 | A boolean slot reads anything, as false exactly for None, false, zero and what is empty. |
| TranscoderLeaves.OctetReads | src/ipe/adapter/messages.py:185-200 | An octet slot takes exactly a byte string of one, a character up to 255, or a number. |
| TranscoderLeaves.NumberReads | src/ipe/adapter/messages.py:163-180 | An integer slot takes exactly what denotes an integer (a float cut towards zero, a single character as its code); only a number, and only of a 64-bit type, becomes text. |
| TranscoderLeaves.FloatReads | src/ipe/adapter/messages.py:167-168 | A float slot takes a float as it is, an integer or a boolean as a float, and nothing else. |
| TranscoderLeaves.ByteArrayReads | src/ipe/adapter/messages.py:209-250 | A byte array is read as base64 of its bytes, whatever it comes as; reading fails exactly on another kind of value or on an item that is no byte. |
| TranscoderCanonical.IntReads | src/ipe/adapter/messages.py:163-178 | A 64-bit integer is read as its decimal text exactly if that is asked for and it is beyond 2^53 either way; every other integer as itself. |
| TranscoderCanonical.OtherReads | src/ipe/adapter/messages.py:145-250 | An octet is read as its number, a byte array as base64 that decodes to it, every other leaf as itself. |
| TranscoderCanonical.RangeIsWidth | src/ipe/adapter/messages.py:49-70 | The declared bounds are those of two's complement, or plain binary, of the width of each integer type. |
| TranscoderCanonical.CanonicalIsExact | src/ipe/adapter/messages.py:122-250 | With 64-bit integers as text, every value that fits a type has a canonical form that JSON carries exactly: no bytes, no tuples, no integer beyond 2^53, at any depth. |
| TranscoderRoundTrip.StructReturns | src/ipe/adapter/messages.py:133-143 | A struct returns if its present members do; absent fields stay absent. |
| TranscoderLoops.ReadStruct | src/ipe/adapter/messages.py:133-143 | The loop over the fields reads exactly the present ones. |
| TranscoderLoops.ReadSequence | src/ipe/adapter/messages.py:209-220 | The loop over the items reads each by the element type, byte arrays as base64. |
| TranscoderLoops.BytesOfItems | src/ipe/adapter/messages.py:230-249 | The loop collects one byte per item or fails at the first bad one. |
| TranscoderLoops.WriteStruct | src/ipe/adapter/messages.py:271-287 | The loop over the members writes each by its slot and fails on any unknown or bad one. |
| TranscoderLoops.WriteSequence | src/ipe/adapter/messages.py:371-390 | Checks the length, then writes each item. |
| Base64.DecodeEncode | src/ipe/adapter/messages.py:210-211 | Base64 decoding undoes encoding, for every byte array (section 4 of RFC 4648). |
| Values.ParsePrintInt | src/ipe/adapter/messages.py:176-178 | Reading the printed decimal text of an integer gives it back. |
| Projection.ProjectionIsSubDocument | src/ipe/core/payload.py:86-101 | The projection is a sub-document of the sanitized payload and agrees with it on every selected path that exists. |
| Projection.ProjectionIsLeast | src/ipe/core/payload.py:86-101 | It is the least document that keeps the selected paths. |
| Projection.ProjectionIgnoresOrder | src/ipe/core/payload.py:86-101 | Order and repetition of the selected paths do not matter. |
| Projection.ProjectionOverwritesNoLeaf | src/ipe/core/common.py:36-45 | set_path never replaces a non-dict node while projecting. |
| Projection.LookupSanitized | src/ipe/core/payload.py:71-83 | Looking up and sanitizing commute. |
| Projection.LeavesSanitized | src/ipe/core/payload.py:71-83 | At every place: a NaN or an infinity becomes null, every other leaf stays, a list or tuple becomes a list of as many items in order. |
| Projection.SanitizedIsJsonSafe | src/ipe/core/payload.py:71-83 | A sanitized value can be carried by JSON exactly if the value holds no bytes; those pass through untouched. |
| Projection.SanitizeKeepsJsonSafe | src/ipe/core/payload.py:71-83 | A value that JSON can already carry is left as it is. |
| Projection.GetPath | src/ipe/core/common.py:26-33 | The walk along a dotted path finds the value exactly if it is there. |
| Projection.SplitJoins | src/ipe/core/common.py:26-33 | The parts of a dotted path hold no dot and, joined by dots, are the path. |
| Projection.ProjectFields | src/ipe/core/payload.py:86-101 | The loop over the paths computes the specified projection. |
| TokenBuckets.TokensStayInRange | src/ipe/core/common.py:79-95 | Tokens stay within [0, capacity] over every run with a monotone clock. |
| TokenBuckets.WindowBound | src/ipe/core/common.py:79-95 | Any span of calls admits at most capacity + rate times its length. |
| TokenBuckets.AdmitsExactly | src/ipe/core/common.py:79-95 | A full bucket admits a call exactly when that overdraws no window. |
| TokenBuckets.TokenBucket.Allow | src/ipe/core/common.py:88-95 | One call refills, caps and takes as specified. |
| SelfEcho.EachEchoConsumesOnePublish | src/ipe/adapter/ros2.py:675-687 | At every prefix there is an injection from suppressed samples to earlier own publishes with the same hash and an age below the window. |
| SelfEcho.SuppressedExactly | src/ipe/adapter/ros2.py:675-687 | A sample is suppressed exactly when an equal publish within the window is still unconsumed. |
| SelfEcho.AfterSampleEntries | src/ipe/adapter/ros2.py:675-687 | A suppressed sample takes exactly one entry away, and only stale ones go with it. |
| SelfEcho.CommandState.IsSelfEcho | src/ipe/adapter/ros2.py:675-687 | The scan answers and leaves the entries as specified. |
| SelfEcho.CommandState.RecordPublish | src/ipe/adapter/ros2.py:785-787 | An own publish appends its hash and its time exactly if the topic is also observed. |

## Left out

- DeliveryTheorems.NothingVanishes: speaks of operations that can be restored from the spool, as characterised by Operations.RestoredIffStorable, and of class TERMINAL, which every caller of put_terminal passes; storage calls succeed.
- InboundAgreement.LedgerAndQueueAgree: its second half is about executors that finish only what they have won since its last clean-up; a late callback of a request whose row was cleaned up and admitted again may end a waiting row. InboundAgreement.NoOrphans holds without that.
- InboundOverflow.OverflowStaysAhead: excludes cleanup, because a late notification of a cleaned-up request is admitted anew wherever the marker is; and needs steady routes, because while provisioning replaces the routes a notification that has one may be answered invalid, and the marker then passes it before it is admitted and overflows. The marker theorems hold without that.
- InboundRecovery.ReacceptedIffAhead: the sweep runs to the end of its listing, with steady routes and without crash or cleanup; a sweep cut short decides nothing about what it did not reach.
- OutboundRuns.ReplayIsARun: one worker alone and without a stop, as OutboundRuns.WorkIsARun and OutboundRuns.StopIsARun; what interleaving does to them is what the theorems on the delivery machine say.
- TransactionRuns.FeedbackCountsUp: a handler runs as one step, and the feedback path is known throughout or not at all.
- Outbound.OutboundProcessor.DrainSpool: the answers and stop flags the replay meets are given as sequences; what other threads do meanwhile is in the delivery machine.
- Client.BackoffDelays: over reals and with the random draws given; floating-point rounding is not modelled.
- Operations.Encode: JSON is modelled as a datatype, not as text; only the content of an operation can hold values JSON cannot.
- Operations.Decode: Python's text form of a foreign identity and its parsing of a numeric text are parameters; an integer too large for a float is read exactly.
- OutboundQueues.OutboundQueue.Claim: waiting for work and its timeout are not modelled, one try is.
- Transcoder.Read: error paths into the message are reduced to failure; numeric texts and bytes in float or integer slots, numpy values and containers with their own byte view are refused here though Python may convert them; floats are reals with NaN and the infinities.
- Base64.Decode: strict about surplus padding, as Python is from version 3.11 on.
- Values.ParseInt: ASCII digits and spaces only.
- QosCodec.Upper: ASCII letters only; policy values are enumerated.
- Projection.SetPath: nested dictionaries are values, so updating one in place is replacing it in its parent.
- CatchUp.CatchUpSweeper.SweepOne: the listing is an input; exceptions that abandon a sweep are a step of the machine. The sweeper's table of registered containers is not modelled.
- Ledgers.Ledger.Boot: rows are answered as sets, not ordered by time.
- InboundProcessing.InboundProcessor.Drain: which handlers raise is given; what a handler then does with a won event (ROS calls, status events) is not modelled beyond the ledger, the transactions and the answers.
- A transport failure between sending and answering, duplicate creation at the server and its de-duplication by resource name are seen only through the answer.
- Ordering between the spool and the live queue is not promised by the program and not claimed; neither is progress: a row that raises on every replay stays at the head.
- The threads' timing, SQL text, connection pools and the difference between SQLite and PostgreSQL; tables are maps and sequences with atomic steps.
- HTTP, MQTT, the notification server, rclpy, approval dialogs, the command line and the launcher.
- Bindings, provisioning, planning and collision checks, which mostly orchestrate; the health and status events they and the workers emit are ordinary terminal operations here.
- Status vocabularies and code tables, regular expressions, schema validation, time zones and anomaly detection, which would only add easy members or restate libraries.
