# A verified model of the proxy server's concurrency, limiting and parsing core

The server is an HTTP and SOCKS5 proxy. Its difficult code is a set of small protocols and data
structures: a "first N results" task pool, bounded task runners, a closable queue and its sharded
drain, reference-counted user connections, a sharded rate limiter and the reader on top of it, a
sharded map, a TLS ClientHello parser, a SOCKS5 codec, a sniffing connection wrapper, and the
teardown of a relay. This project models each of them in Dafny and proves what it is for.

Check it with `dafny verify dfyconfig.toml`.

## How the models are built

*Concurrent code* is a step system: an explicit program counter for every goroutine, one step for
every section of a lock, atomic operation and channel operation, and a schedule that picks the next
step and every outside choice (what a task returns, how many bytes arrive, what the clock says).
`Run(..., sched)` is the state after a schedule, or nothing when the schedule asks for a step that
is not enabled. Every main result is about all schedules.

*Data structures and parsers* are classes and methods that update their fields in place, or loops
over a shrinking input, as the code has them. Each method is proved against a function of the old
state or of the input; lemmas then say what those functions mean.

| file | what it models |
|---|---|
| `FirstResults.dfy`, `TimeoutResults.dfy` | the bounded pool that keeps the first N results, and its timeout wrapper |
| `AtomicTask.dfy` | the runner bounded by an atomic counter and a condition variable |
| `ConsumerManager.dfy` | `AddTask` dispatchers, their workers, and `Stop` |
| `MQueue.dfy` | the queue's linked list with recycled nodes |
| `Delivery.dfy`, `SendQueues.dfy` | blocking consumers of one queue, and how the list's methods take their steps; eight queues, their handlers and the draining close |
| `UserConnections.dfy`, `IpSlots.dfy` | contexts shared per user and IP; connections counted per IP |
| `FlowLimit.dfy`, `LimitedReader.dfy` | the eight shard budgets; the reader that spends them, and any number of readers sharing them |
| `ConcurrentMap.dfy`, `Fnv.dfy` | the map of four shards and its iterators; the hash that picks a shard |
| `HelloGrammar.dfy`, `ClientHello.dfy` | the ClientHello of section 4.1.2 of RFC 8446 as a grammar with its encoder, its layout and its decoder; the parser's loops |
| `Socks5.dfy` | replies and addresses of sections 5 and 6 of RFC 1928 |
| `Sniffing.dfy`, `Relay.dfy` | the connection wrapper that fires once; the relay's goroutines, channels and deferred steps |
| `Sums.dfy`, `Wrappers.dfy`, `Bytes.dfy` | sums over goroutines, `Option` and `Result`, bytes |

## What turned out not to hold everywhere

- A domain name longer than 255 bytes is cut off by the reply's length byte, so a reply is read back
  as its address if and only if the name fits (`Socks5.RoundTrip`).
- A burst of 1 to 7 bytes leaves every shard's share at zero; as long as all bursts are like that
  nothing is ever granted (`FlowLimit.TinyBurstGrantsNothing`), and the first read is granted
  something if and only if the configured burst is not one of these (`FlowLimit.FirstGrant`).
- A disconnect is meant to close exactly one user's connections, but the key of a connection joins
  user and IP by a colon, and a user's keys are found by what stands before the first colon. Without
  listed IPs the disconnect of u closes exactly u's own connections if and only if, for a u without
  a colon, no connected name starts with u and a colon, and u is not connected itself if it has a
  colon or is empty (`UserConnections.UserDisconnectExact`). Disconnecting `a` also closes the
  connections of `a:b` (`UserConnections.AnotherUserIsClosed`).
- With listed IPs it closes exactly the user's connections from them if and only if no connection
  of another user is under one of these keys, and the user, if its name is empty, has no connection
  from them, since the empty name is refused (`UserConnections.IpDisconnectExact`). Two connections
  share a key exactly as `UserConnections.SameKey` says. User `a` at `1:2::3` and user `a:1` at
  `2::3` share one, and with it a context and a rate limiter, and disconnecting the one closes the
  other (`UserConnections.OneKeyForTwoUsers`); IPs without a colon rule it out
  (`UserConnections.PlainIpsApart`).
- A limited reader keeps the bytes that its source delivers beside an error for a later call, but a
  copy ends at the first error. It has then delivered all that was fetched if and only if nothing is
  left in the buffer, and what is missing after an error of the source is exactly what came beside
  it (`LimitedReader.CopyUntilError`).
- `UnmarshalByByte` does not look for the five bytes of the record header that it skips. A buffer
  with first byte 0x16 is handed to the parser if and only if it has at least five bytes; with one to four the
  slice expression panics, and the relay's sniffing goroutine passes such a buffer on as it is. The
  model states the five bytes as the requirement of `ClientHello.UnmarshalByByte`.

## Model

| member | source | states |
|---|---|---|
| FirstResults.NextPc | utils/taskRunManager/chanTask.go:61-83 | every step of a task goroutine moves it strictly forward to its end |
| FirstResults.Safety | utils/taskRunManager/chanTask.go:37-88 | on every schedule there is no send on the closed channel and no second close, the non-blocking send drops nothing, at most `poolCount` bodies run, the channel is closed early only when full, and each value sent is the unaltered result of a task of its own |
| FirstResults.CountersInRange | utils/taskRunManager/chanTask.go:54-74 | the two int32 counters never wrap around, whatever the interleaving |
| FirstResults.ExactCount | utils/taskRunManager/chanTask.go:37-88 | if the parent context is never done, the closed channel has carried exactly min(N, number of successful tasks) values |
| FirstResults.FullStreamCloses | utils/taskRunManager/chanTask.go:46-80 | on every schedule, once no task is still about to see to it, a full stream has closed the channel and cancelled the context, a result too many has made the context done, and an ended driver has done both |
| FirstResults.DoneStopsSending | utils/taskRunManager/chanTask.go:63-73 | once the context is done, by a cancel or by its parent, only tasks already past their look at it still send, whatever follows |
| FirstResults.SendSucceeds | utils/taskRunManager/chanTask.go:72-80 | a task about to send finds the channel open and with room |
| FirstResults.AllFinished | utils/taskRunManager/chanTask.go:19-33 | a wait group at zero means that every spawned task has left, its slot freed |
| FirstResults.StreamGrows | utils/taskRunManager/chanTask.go:37-88 | no step takes back or reorders a value of the stream, none adds to it after the close, and no task succeeds after the end |
| FirstResults.RunIsBounded | utils/taskRunManager/chanTask.go:15-88 | the driver and the tasks take at most 14 steps per parameter and 5 more, on any schedule |
| FirstResults.NotStuck | utils/taskRunManager/chanTask.go:15-88 | until the driver has closed the channel and ended, one of them can step, whether or not the caller receives |
| FirstResults.NothingRefused | utils/taskRunManager/chanTask.go:37-88 | any result of a running task, a receive when a value is there and the end of the parent are possible after every schedule |
| TimeoutResults.OuterStream | utils/taskRunManager/chanTask.go:90-132 | the wrapper's stream is a prefix of the inner one with nothing dropped, never sent on after the close, and has min(N, successes) values when the inner channel ended before the timeout; when the forwarding has ended the channel is closed and the inner context done |
| TimeoutResults.TimeoutEnds | utils/taskRunManager/chanTask.go:101-116 | once the timer has fired, a forwarder at its select can close the channel in three steps, sending nothing more |
| TimeoutResults.StepsBounded | utils/taskRunManager/chanTask.go:90-132 | the goroutines of wrapper and inner protocol together take a bounded number of steps on any schedule |
| TimeoutResults.NotStuck | utils/taskRunManager/chanTask.go:90-132 | until the wrapper's channel is closed one of those goroutines can step, even if the caller never receives and the timer never fires |
| AtomicTask.AtMostCap | utils/taskRunManager/atomicTask.go:26-42 | never more than `count` bodies run at once |
| AtomicTask.OneBodyPerRun | utils/taskRunManager/atomicTask.go:26-36 | on every schedule there are as many bodies, running or over, as calls of Run have returned |
| AtomicTask.CountStays | utils/taskRunManager/atomicTask.go:26-42 | every step keeps the counter equal to the number of bodies that have not decremented it, between 0 and `count` |
| AtomicTask.WakeupStays | utils/taskRunManager/atomicTask.go:65-78 | every step keeps: who is parked or about to park has the counter as a reason, or a finished task still owes its broadcast |
| AtomicTask.NoLostWakeup | utils/taskRunManager/atomicTask.go:26-78 | a goroutine parked in Run or Wait implies a full, or non-zero, counter or an owed broadcast, and some body that is not over |
| AtomicTask.WaitReturnsIdle | utils/taskRunManager/atomicTask.go:44-53 | at the step with which a Wait returns no body is running |
| AtomicTask.NotStuck | utils/taskRunManager/atomicTask.go:26-78 | while any call or body is not over, some goroutine can step |
| AtomicTask.StepsBounded | utils/taskRunManager/atomicTask.go:26-78 | with n calls on a schedule, r of them of Run, its goroutines take at most (18 n + 22) r + 4 (n - r) steps, so no retry loop of Run or Wait goes on for ever |
| ConsumerManager.AtMostCount | utils/taskConsumerManager/manager.go:28-63 | at most `count` copies of a task run, and no token is sent on the closed token channel |
| ConsumerManager.EveryTaskRegistered | utils/taskConsumerManager/manager.go:28-63 | until the context is done there are, for every n, as many dispatchers of n copies, counting calls on their way, as there were calls of AddTask with n |
| ConsumerManager.CopiesAreReplaced | utils/taskConsumerManager/manager.go:42-61 | until then a dispatcher at its select with fewer than `count` copies holding a token can start another |
| ConsumerManager.StopsAreAnswered | utils/taskConsumerManager/manager.go:65-68 | every call of Stop is under way or has returned, and the context is done exactly when one of them has taken its first step |
| ConsumerManager.StoppedStays | utils/taskConsumerManager/manager.go:28-68 | once a Stop has returned, no step makes a dispatcher spawn another worker, new AddTask calls included |
| ConsumerManager.NothingAfterStop | utils/taskConsumerManager/manager.go:28-68 | after a Stop has returned no body is running, and on no continuation of the schedule is one ever started |
| ConsumerManager.StepDrains | utils/taskConsumerManager/manager.go:28-68 | once the context is done, every step of an AddTask past its check, of a dispatcher or of a worker brings a non-negative backlog down, and no other step, new calls included, raises it |
| ConsumerManager.DrainingIsBounded | utils/taskConsumerManager/manager.go:28-68 | on any continuation of a schedule after the cancel the number of these steps is bounded by the backlog at the cancel |
| ConsumerManager.StopNotStuck | utils/taskConsumerManager/manager.go:65-68 | a waiting Stop can return, or one of these steps can be taken, so it returns once the bodies end |
| MQueue.MQueue.constructor | utils/Queue/mqueue.go:29-45 | a new queue is open and empty |
| MQueue.MQueue.GetNode | utils/Queue/mqueue.go:34-42 | a node from the pool is not on the list, and the pool and list stay disjoint |
| MQueue.MQueue.Enqueue | utils/Queue/mqueue.go:58-86 | an open queue's sequence gets the value at its end, a closed one refuses it unchanged; the list, the tail rule, the count and the pool stay in order |
| MQueue.MQueue.Dequeue | utils/Queue/mqueue.go:98-126 | the oldest value is returned and removed, its cleared node goes to the pool; an empty queue gives the zero value |
| MQueue.MQueue.Close | utils/Queue/mqueue.go:48-53 | closing keeps the contents |
| MQueue.MQueue.Count | utils/Queue/mqueue.go:176-180 | the count is the length of the abstract sequence |
| Delivery.ExactlyOnce | utils/Queue/mqueue.go:58-173 | for any producers, closers and consumers: what was accepted is what was taken followed by what is queued, and each taken message is in the hands of exactly one consumer or handled, not both |
| Delivery.NoLostWakeup | utils/Queue/mqueue.go:131-173 | a parked consumer implies an open and empty queue; one that gave up implies a closed and empty one |
| Delivery.Drained | utils/Queue/mqueue.go:153-173 | when all consumers have given up, every accepted message has been handled |
| Delivery.ClosedDrains | utils/Queue/mqueue.go:131-173 | a closed queue accepts nothing more, and every step of a consumer brings a non-negative measure of the rest down |
| Delivery.ClosedNotStuck | utils/Queue/mqueue.go:131-173 | in a closed queue every consumer that has not returned can step |
| QueueSteps.Enqueue | utils/Queue/mqueue.go:58-86 | the list's method takes a queue that shows a state of the protocol to one that shows the state after the accepting, or refusing, step |
| QueueSteps.Dequeue | utils/Queue/mqueue.go:98-126 | likewise for a consumer's dequeue: what it returns is the message of the step, and its two flags decide where the consumer goes |
| QueueSteps.Close | utils/Queue/mqueue.go:48-53 | likewise for the close |
| QueueSteps.Check | utils/Queue/mqueue.go:165-171 | the look at status and count waits exactly when the step parks the consumer |
| SendQueues.CloseDrainsAll | server/rabbitmq_product.go:24-79 | the close returns only when all messages that any of the eight queues ever accepted have been handled, and none can be accepted any more |
| SendQueues.AcceptedIsPushed | server/rabbitmq_product.go:42-44 | what a queue has accepted is what was pushed on it while it was open, in order |
| SendQueues.CloseAdvances | server/rabbitmq_product.go:35-40 | the close has one step for each of the eight queues and one more with which it returns |
| SendQueues.WaitingDrains | server/rabbitmq_product.go:35-40 | with all queues closed, every handler step and the closing of the done channel brings a non-negative measure of what remains down, and nothing raises it |
| SendQueues.CloseNotStuck | server/rabbitmq_product.go:35-79 | until the close has returned, it, a handler, or the closing of the done channel can go on |
| UserConnections.Manager.AddUserConnection | server/manager.go:125-140 | joins the mapped context or maps a new one, as the abstract connect does, and returns it |
| UserConnections.Manager.DeleteUserConnection | server/manager.go:142-158 | releases only the context held: another generation under the key stays as it is |
| UserConnections.Manager.CloseUserConnections | server/manager.go:160-169 | unmaps the key and cancels what it mapped, and tells whether there was anything |
| UserConnections.Manager.Disconnect | server/rabbitmq_disconnect_consume.go:80-117 | closes the keys of the user's listed IPs, or with none listed every key of the user that the iterator yields |
| UserConnections.ClosedAllEffect | server/rabbitmq_disconnect_consume.go:93-116 | exactly the given keys disappear and exactly the contexts they mapped are cancelled; no counter changes |
| UserConnections.OfUserMembers | server/rabbitmq_disconnect_consume.go:93-107 | the keys picked are exactly those that the iterator yielded with the user before the colon |
| UserConnections.UserOfKey | server/rabbitmq_disconnect_consume.go:95-98 | splitting a key at the colon gives the user back if and only if the user name has no colon |
| UserConnections.UserDisconnectExact | server/rabbitmq_disconnect_consume.go:87-107 | without listed IPs, the connections closed are exactly those of the user if and only if no connected name goes on after a colon-free user with a colon, and a user with a colon, or an empty one, is not connected |
| UserConnections.IpDisconnectExact | server/rabbitmq_disconnect_consume.go:87-116 | with listed IPs, the connections closed are exactly the user's from these IPs if and only if no other user's connection shares one of the keys and an empty user name has none of them |
| UserConnections.SameKey | server/rabbitmq_disconnect_consume.go:110-111 | two connections have one key exactly if they are the same, or one name goes on after the other with a colon and what the other's IP has in front |
| UserConnections.PlainIpsApart | server/rabbitmq_disconnect_consume.go:110-111 | with IPs without a colon no keys are shared |
| UserConnections.AnotherUserIsClosed | server/rabbitmq_disconnect_consume.go:93-107 | disconnecting a closes the connection of a:b and cancels its context |
| UserConnections.OneKeyForTwoUsers | server/rabbitmq_disconnect_consume.go:110-116 | two users at two IPv6 addresses have one key, and disconnecting the one from its address closes and cancels the other's |
| ConnectionRuns.CountsAreExact | server/manager.go:125-169 | on every schedule of connects, releases and disconnects a mapped context's counter is the number of live handlers holding it and at least 1; a live handler whose context is unmapped finds it cancelled or about to be |
| ConnectionRuns.NoContextLeftBehind | server/manager.go:125-169 | on every schedule every context ever created is mapped, or cancelled, or popped by a disconnect about to cancel it, whether or not anybody still holds it |
| ConnectionRuns.MappedKeysAreLive | server/manager.go:125-169 | the map's keys are exactly those of live handlers whose contexts are mapped, and no context is mapped by two keys |
| ConnectionRuns.OldGenerationIsHarmless | server/manager.go:142-158 | a release by the holder of an unmapped context changes no counter, cancels nothing and unmaps nothing |
| ConnectionRuns.DisconnectTells | server/rabbitmq_disconnect_consume.go:93-116 | however a disconnect interleaves with connects, releases and other disconnects: when it is through, every handler that was live under one of its keys at the call, and still is, holds an unmapped context and has been told, or is about to be |
| ConnectionRuns.OneLimiterPerKey | server/manager.go:125-140 | live handlers of one key whose contexts are neither done nor about to be share one rate limiter |
| ConnectionRuns.LimitersApart | server/manager.go:125-140 | different contexts have different limiters, and after a stop of the manager every context is done |
| ConnectionRuns.QuiescentHandlersAreMapped | server/manager.go:125-169 | with no disconnect under way a live handler is undone if and only if it holds the mapped context of its key |
| IpSlots.Counter.AddIpConnCount | server/manager.go:88-110 | admits unless the limit is reached, counts who is admitted, and reports the count |
| IpSlots.Counter.ReduceIpConnCount | server/manager.go:112-123 | counts down, and removes the entry at zero |
| IpSlots.EntryIsNumber | server/manager.go:88-123 | an entry exists exactly for IPs with admitted live handlers, and is their number |
| IpSlots.NeverAboveLimit | server/manager.go:88-110 | with limits of 1 to L at all its arrivals, an IP never has more than L live handlers |
| IpSlots.ArrivalIsAnswered | server/manager.go:88-110 | on every schedule an arrival is let in exactly when its IP has no live handler, or there is no limit, or the live handlers are below it, and counts for this IP only |
| IpSlots.DepartureFreesSlot | server/manager.go:112-123 | a handler that leaves frees its own slot and no other |
| FlowLimit.LimitedReaderAction.constructor | server/flow_limit.go:36-58 | non-positive parameters become the defaults; every shard starts with an eighth of the burst |
| FlowLimit.LimitedReaderAction.UpdateParameter | server/flow_limit.go:66-83 | replaces rate, burst, share and the global rest, and leaves the shards' budgets |
| FlowLimit.LimitedReaderAction.GetReadSize | server/flow_limit.go:91-145 | after a refill when the shard is exhausted, grants exactly the least of request, rate and shard budget and deducts it; in a new second an exhausted shard draws on a renewed burst and grants something if and only if the burst is at least eight |
| FlowLimit.SizeBounds | server/flow_limit.go:124-144 | a grant is at most the request, the rate and the shard's budget, equals one of them, and leaves no budget negative |
| FlowLimit.ReadyGives | server/flow_limit.go:98-122 | an exhausted shard is given its eighth of the burst from the supply, or all of a smaller one, the supply being a whole burst in a new second; other shards and the parameters stay |
| FlowLimit.NewSecondGrants | server/flow_limit.go:98-144 | the first call of a new second at an exhausted shard grants something if and only if the burst is at least eight |
| FlowLimit.TurnsDiffer | server/flow_limit.go:93 | eight calls in a row have each of the eight shards once, across the counter's wrap-around |
| FlowLimit.CreatedSupplies | server/flow_limit.go:36-58 | a new action has the given rate and burst, or 30 KB and 100000 KB, an eighth of the burst in every shard and a whole one beside them |
| FlowLimit.UpdateSupplies | server/flow_limit.go:66-83 | an update sets rate, burst and share, renews the global rest, and leaves the shards and the second |
| FlowLimit.UpdateHolds | server/flow_limit.go:66-144 | from an update until the next, whatever happens in between, its parameters hold and no grant exceeds its rate |
| FlowLimit.StepConserves | server/flow_limit.go:66-145 | one refill, grant or update: granted plus all that is left is what was there plus what was injected |
| FlowLimit.Conservation | server/flow_limit.go:66-145 | the same over every run, with delivery at most the grants plus one byte per read that was granted nothing |
| FlowLimit.CallIsSteps | server/flow_limit.go:91-145 | a call is a refill, if the shard is exhausted, and a grant of a run, with the same budgets, grant and delivery |
| FlowLimit.StaysBelow | server/flow_limit.go:91-145 | with bursts up to B, no shard ever holds more than an eighth of B nor the global rest more than B |
| FlowLimit.InjectionBound | server/flow_limit.go:66-106 | with a clock not running backwards, at most B is injected per second passed and per update |
| FlowLimit.RateBound | server/flow_limit.go:36-145 | any stretch from stored second s to t with u updates grants at most (t - s + u + 2) times B, the ceiling, and delivers at most that and a byte per starved read; with fixed parameters u is zero and B the burst |
| FlowLimit.TinyBurstGrantsNothing | server/flow_limit.go:36-145 | while all bursts are 1 to 7 no run ever grants a byte |
| FlowLimit.FirstGrant | server/flow_limit.go:36-58 | a new action grants the first read something if and only if the burst is not 1 to 7 |
| LimitedReader.LimitedReader.Read | server/flow_limit.go:174-215 | bytes delivered followed by those buffered are those fetched, whatever the chunks and errors; a success delivers min(len(p), grant) buffered bytes in order, or one when nothing is granted, where the grant is what the action's rate and budgets give for the bytes buffered, and the action is charged exactly that; an error delivers and charges nothing, and it is exactly known which error it is |
| LimitedReader.CopyUntilError | server/flow_limit.go:174-215 | a copy that reads to the first error has delivered all that was fetched if and only if the buffer is empty, and after an error of the source all but what came beside it |
| LimitedReader.LimitedReader.Fill | server/flow_limit.go:183-189 | an empty buffer is replaced by the next chunk of the source |
| LimitedReader.LimitedReader.Deliver | server/flow_limit.go:205-213 | the front of the buffer is copied out and the window moves on by as much |
| LimitedReader.LimitedReader.Quota | server/flow_limit.go:196-203 | the action's grant for the buffered bytes, charged to it, or one byte when it is nothing, which is recorded as a starved read |
| SharedLimiter.ReadIsSteps | server/flow_limit.go:174-215 | what the contract of Read says of a success is what a fetch if the buffer is empty, a refill if the shard is exhausted, and a delivery do to one of several readers and their action |
| SharedLimiter.TallyIsSum | server/flow_limit.go:91-215 | however the readers of one action and its updates interleave, the limiter's tally of grants, deliveries and starved reads is the sum over the readers |
| SharedLimiter.StaysInOrder | server/flow_limit.go:174-215 | every reader's deliveries and buffer stay what it has fetched, in order |
| SharedLimiter.SharedRateBound | server/flow_limit.go:36-215 | over any stretch from stored second s to t with u updates all readers together deliver at most (t - s + u + 2) times the largest burst and a byte for each starved read |
| Shards.OwnShard | utils/Map/concurrentMap/map.go:57-59 | for any sharding function a key is in the one map exactly if it is in its own shard, with the same value |
| Shards.SetInShard | utils/Map/concurrentMap/map.go:71-77 | setting a key in its shard sets it in the one map and keeps the cut |
| Shards.RemoveFromShard | utils/Map/concurrentMap/map.go:144-150 | removing a key from its shard removes it from the one map and keeps the cut |
| Shards.SizesAddUp | utils/Map/concurrentMap/map.go:121-130 | the shards' sizes add up to the size of the one map |
| ConcurrentMap.ConcurrentMap.constructor | utils/Map/concurrentMap/map.go:30-39 | a new map is empty and cut by its sharding function |
| ConcurrentMap.ConcurrentMap.Set | utils/Map/concurrentMap/map.go:71-77 | is the update of the one map |
| ConcurrentMap.ConcurrentMap.Upsert | utils/Map/concurrentMap/map.go:86-94 | stores and returns what the callback makes of the present value, if any, and the new one |
| ConcurrentMap.ConcurrentMap.SetIfAbsent | utils/Map/concurrentMap/map.go:97-107 | stores exactly when the one map had no such key |
| ConcurrentMap.ConcurrentMap.Get | utils/Map/concurrentMap/map.go:110-118 | looks up in the one map |
| ConcurrentMap.ConcurrentMap.Count | utils/Map/concurrentMap/map.go:121-130 | the loop over the shards counts the one map |
| ConcurrentMap.ConcurrentMap.Remove | utils/Map/concurrentMap/map.go:144-150 | removes from the one map |
| ConcurrentMap.ConcurrentMap.RemoveCb | utils/Map/concurrentMap/map.go:159-170 | removes exactly if the callback says so, and returns its answer also for a missing key |
| ConcurrentMap.ConcurrentMap.Pop | utils/Map/concurrentMap/map.go:173-181 | removes and returns the value, if any |
| Iteration.YieldsEachKeyOnce | utils/Map/concurrentMap/map.go:227-279 | under concurrent writes the iterator yields no key twice, and when it ends it has yielded exactly the tuples of the four shard snapshots, with every key that was present throughout |
| Iteration.WritesAreTheMaps | utils/Map/concurrentMap/map.go:71-77 | the writes that go on meanwhile are those of the one map, and iterating leaves it alone |
| Fnv.Fnv32 | utils/Map/concurrentMap/map.go:347-356 | the loop computes the byte-by-byte hash on 32-bit words |
| Fnv.StepIsBijective | utils/Map/concurrentMap/map.go:350-354 | each byte step has an inverse on 32-bit states, on both sides |
| Fnv.SuffixKeepsCollisions | utils/Map/concurrentMap/map.go:347-356 | a common suffix neither creates nor removes a collision |
| Fnv.OneByteApart | utils/Map/concurrentMap/map.go:347-356 | keys of one length that differ in exactly one byte never collide |
| Fnv.ShardFromLowBits | utils/Map/concurrentMap/map.go:57-59 | the shard of a key is a recursion on the low two bits of its bytes |
| Fnv.XorBits | utils/Map/concurrentMap/map.go:353 | the exclusive or, bit by bit |
| Fnv.KnownHashes | utils/Map/concurrentMap/map.go:347-356 | the hash of the empty key is 0x811c9dc5 and that of "a" is 0x050c5d7e |
| HelloDecoding.ParseSound | server/sniffing/tls/client_hello.go:155-446 | whatever is accepted is the encoding of the well-formed hello it is read as: distinct extension ids, pre_shared_key last, every vector within its bounds |
| HelloDecoding.ParseComplete | server/sniffing/tls/client_hello.go:155-446 | the encoding of every well-formed hello is accepted and read as that hello |
| HelloDecoding.PrefixFree | server/sniffing/tls/client_hello.go:200-208 | no proper extension, and so no proper prefix, of accepted data is accepted |
| HelloDecoding.ExtensionsSound | server/sniffing/tls/client_hello.go:210-443 | an accepted extension list has each id once and none seen before, and encodes back to the same bytes |
| HelloDecoding.ExtensionsComplete | server/sniffing/tls/client_hello.go:210-443 | every well-formed extension list is accepted as itself |
| HelloDecoding.BodySound | server/sniffing/tls/client_hello.go:226-442 | an accepted extension body is well-formed for its id and encodes back to the same bytes |
| HelloDecoding.BodyComplete | server/sniffing/tls/client_hello.go:226-442 | every well-formed extension body is accepted as itself |
| HelloDecoding.AcceptedShape | server/sniffing/tls/client_hello.go:210-443 | what is accepted has every id once, pre_shared_key at the end, no empty list or vector where the code forbids it, and at most one host name, not ending in a dot |
| HelloDecoding.AcceptedBodies | server/sniffing/tls/client_hello.go:226-442 | key shares, PSK modes and renegotiation info may be empty; tickets, QUIC parameters and unknown extensions hold anything |
| HelloLayout.BodyLayout | server/sniffing/tls/client_hello.go:226-442 | the id of every extension and what stands in its data, with all widths written out |
| HelloLayout.ItemLayout | server/sniffing/tls/client_hello.go:233-430 | how names, protocols, key shares, PSK identities and binders are written |
| HelloLayout.ItemsLayout | server/sniffing/tls/client_hello.go:233-430 | lists are written one item after the other |
| HelloLayout.U16sLayout | server/sniffing/tls/client_hello.go:180-191 | 16-bit numbers are written one after the other, high byte first |
| HelloLayout.ExtensionLayout | server/sniffing/tls/client_hello.go:210-217 | an extension is its id and its data behind two bytes |
| HelloLayout.ExtensionsLayout | server/sniffing/tls/client_hello.go:210-217 | extensions are written one after the other |
| HelloLayout.MessageLayout | server/sniffing/tls/client_hello.go:160-208 | the message is four bytes, the version, 32 random bytes and four vectors behind one, two, one and two bytes |
| ClientHello.Unmarshal | server/sniffing/tls/client_hello.go:155-446 | accepts exactly the encodings of well-formed hellos, and fills in every field with what the hello says |
| ClientHello.UnmarshalByByte | server/sniffing/tls/client_hello.go:140-152 | accepts exactly a first byte 0x16 and such an encoding from the sixth byte on |
| ClientHello.Parsed | server/sniffing/tls/client_hello.go:155-446 | the parser agrees with the grammar's decoder on acceptance and on all fields |
| ClientHello.ReadUint16s | server/sniffing/tls/client_hello.go:180-191 | the loop reads the 16-bit numbers to the end, or fails on an odd byte |
| ClientHello.FindScsv | server/sniffing/tls/client_hello.go:186-189 | the renegotiation flag is set exactly if the signalling suite is offered |
| ClientHello.UnmarshalExtensions | server/sniffing/tls/client_hello.go:210-443 | the loop with its set of seen ids accepts exactly the decodable lists, and each field is its extension's payload, or empty without one |
| ClientHello.UnmarshalExtension | server/sniffing/tls/client_hello.go:226-442 | the switch accepts exactly the decodable bodies and sets the fields of that extension and no others |
| ClientHello.ReadNames | server/sniffing/tls/client_hello.go:233-257 | the loop over server names, with the name found so far, is the scan |
| ClientHello.ScanMeansHost | server/sniffing/tls/client_hello.go:233-257 | the scan succeeds exactly for lists with at most one type-0 name, without a final dot, and finds that name |
| ClientHello.ServerNameMeaning | server/sniffing/tls/client_hello.go:227-257 | the server name is non-empty if and only if extension 0 carries a type-0 name, is that name, and does not end in a dot |
| ClientHello.ExtensionMeaning | server/sniffing/tls/client_hello.go:258-434 | every field of every extension of an accepted hello is what it carries, element by element and in order: protocols, PSK identities with their ages, binders, key shares with their groups, numbers, vectors and flags |
| ClientHello.AbsentMeaning | server/sniffing/tls/client_hello.go:157-443 | without an extension its fields are empty, or false |
| ClientHello.PlainMeaning | server/sniffing/tls/client_hello.go:160-203 | version and random are bytes 4 to 5 and 6 to 37, session id, suites and compression methods are the hello's, and the renegotiation flag is set if and only if suite 0x00ff or the extension is there |
| ClientHello.UnmarshalServerName | server/sniffing/tls/client_hello.go:227-257 | the server name extension: a non-empty list and nothing after it |
| ClientHello.UnmarshalStatusRequest | server/sniffing/tls/client_hello.go:258-268 | a type byte, two vectors and nothing after them; stapling is type 1 |
| ClientHello.UnmarshalNumbers | server/sniffing/tls/client_hello.go:269-372 | the four lists of 16-bit numbers: never empty, all read, nothing after them |
| ClientHello.UnmarshalOpaque | server/sniffing/tls/client_hello.go:283-397 | the four byte vectors, of which points and cookie may not be empty |
| ClientHello.UnmarshalList | server/sniffing/tls/client_hello.go:336-388 | protocols and key shares, of which only the shares may be an empty list |
| ClientHello.UnmarshalFlag | server/sniffing/tls/client_hello.go:333-392 | extensions whose presence is the message must be empty |
| ClientHello.UnmarshalPreSharedKey | server/sniffing/tls/client_hello.go:404-434 | identities and binders, both non-empty, and nothing after them |
| Socks5.RoundTrip | utils/socks5/func.go:125-221 | what SendReply writes, followed by any rest, is read back as the address, IPv4-mapped IPs as IPv4 and a name taking precedence, and leaves exactly the rest, if and only if the name has at most 255 bytes |
| Socks5.ExpressibleRoundTrip | utils/socks5/func.go:72-221 | a name of at most 255 bytes, or a 4- or 16-byte IP, with a port of 16 bits, is read back as it is, an IPv4-mapped IP as its last four bytes |
| Socks5.MappedIsTo4 | utils/socks5/func.go:139-147 | an IP counts as IPv4 exactly if it has four bytes, or ten zeros and two bytes of ones before them |
| Socks5.ReadsExactlyRequests | utils/socks5/func.go:72-221 | an address is read exactly from the requests of section 5 of RFC 1928, whatever the command, with exactly the rest left |
| Socks5.WhichError | utils/socks5/func.go:72-221 | a wrong version, an unknown type of address, or a stream that ends too soon and could be completed |
| Socks5.FormatFails | utils/socks5/func.go:125-168 | formatting fails exactly without a name and with an IP of neither 4 nor 16 bytes |
| Socks5.SendReply | utils/socks5/func.go:125-168 | the message laid out byte by byte is the reply of section 6 of RFC 1928: 5, the given code, 0, the type for the address, the address and the port |
| Socks5.ReadFull | utils/socks5/func.go:72-77 | under any chunking the buffer is filled with the next bytes, or the stream is too short |
| Socks5.ReadAddrSpec | utils/socks5/func.go:170-221 | under any chunking the address, what is left of the stream, or the error, are those of the decoder |
| Socks5.ReadDestAddr | utils/socks5/func.go:72-92 | the same with the version checked first |
| Sniffing.ReadWriterNotice.constructor | server/sniffing/conn.go:20-43 | a new wrapper is open, has not fired, and starts from the given bytes |
| Sniffing.ReadWriterNotice.Read | server/sniffing/conn.go:57-72 | bytes count as read before the first write until that write, and a closed wrapper gives the end of the stream |
| Sniffing.ReadWriterNotice.Write | server/sniffing/conn.go:74-97 | the first write, and no other, fires with exactly the initial bytes and all bytes read before it |
| Sniffing.ReadWriterNotice.Close | server/sniffing/conn.go:45-55 | only the first close succeeds, and nothing fires after it |
| SniffingRace.FiresAtMostOnce | server/sniffing/conn.go:45-97 | with a reader, writers and closers at once the callback fires at most once, with the initial bytes and a prefix of the bytes read |
| SniffingRace.FiresWithAllRead | server/sniffing/conn.go:45-97 | at any moment before the first write, or before a write has won the swap, with no read under way: if the callback fires, its argument begins with the initial bytes and all bytes read so far |
| SniffingRace.FiresForFirstWrite | server/sniffing/conn.go:74-97 | once a write is through, with nobody closing and no writer on its way to the callback, it has been called exactly once if there is one |
| SniffingRace.CloseStops | server/sniffing/conn.go:45-55 | once a close is past its swap no read starts and no new write fires, and once no close is in between the buffer is gone |
| SniffingRace.CallsAreKept | server/sniffing/conn.go:45-97 | every call of Write and Close is under way or has returned |
| Relay.Teardown | server/http_proxy_handler.go:139-289 | no goroutine sends on a closed channel or blocks on a send, the channels are closed only after all three have ended, and then the user's and last the IP's slot is released |
| Relay.SignalsArrive | server/http_proxy_handler.go:168-289 | a copy that is over lets the handler leave its loop by its error, a waiting sniffer can take the bytes of the first write and the announced end, and what is taken is no longer there |
| Relay.EverythingReleased | server/http_proxy_handler.go:139-176 | the slots are held until all goroutines have ended, and when the handler is gone everything is over, closed and released |
| Relay.Progress | server/http_proxy_handler.go:139-289 | every step but one more write to the client brings a non-negative measure of the remaining teardown down |
| Relay.NotStuck | server/http_proxy_handler.go:139-289 | until the handler is gone such a step is possible |

## Left out

- Redis, AMQP, protobuf, Nacos configuration, logging, authentication, HTTP parsing, dialing, domain patterns and deadlines: library behaviour or plumbing. A configuration change is an arbitrary parameter of a step.
- `utils/rabbitMQ/rabbitQueue.go`, blacklists, round robin, `GetUserPassword`, `ReadMethods`, `ReadVersion`, and `MSet`, `Clear`, `Keys`, `IterCb`, `Has` and the JSON of the map: they would only add easy members.
- FirstResults.Safety: assumes a pool of at least 1 and a wanted number of 0 to 2^31-1, so the conversion of larger numbers to int32 is not modelled; with a pool of 0 the first task would block for ever.
- AtomicTask.AtMostCap: assumes a count of at least 1 that fits an int32.
- ConsumerManager.NothingAfterStop: an Add on the manager's wait group racing with a Wait that finds it at zero is a plain step here; the panic that Go reserves for some such races is not modelled.
- Delivery.ExactlyOnce: a step is a whole lock section of the queue, with the effect that QueueSteps proves of the list's methods; the second argument of the callback, whether the queue was closed, is not recorded.
- SendQueues.CloseDrainsAll: the queue of each message is the schedule's choice, which covers the atomic counter; the handlers' goroutines are there from the start; what the broker does with a message is not modelled.
- UserConnections.Manager.DeleteUserConnection: a context is named by the order of its creation instead of by its pointer, and contexts are kept for ever.
- FlowLimit.Conservation: counters are unbounded integers instead of int and int64 (FlowLimit.StaysBelow bounds the budgets); the reads of the rate outside the lock belong to the step that uses them.
- FlowLimit.RateBound: the bound on grants is also the bound on delivery, up to one byte for each starved read, which waits 33 ms in the code and takes no time here.
- SharedLimiter.TallyIsSum: a reader's fetch, its refill and its delivery are three steps; that the shard stays locked between the last two, so that no other reader of it comes between them, is not used, and the results hold without it.
- LimitedReader.LimitedReader.Read: bytes that arrive together with an error are taken as fetched and stay in the buffer for a later call, which is what the code does. How a reader's context ends is a parameter, and the wait of a starved read does nothing.
- ConcurrentMap.ConcurrentMap.Upsert: methods of the map run one after the other; only the iterators are modelled under concurrent writes.
- Iteration.YieldsEachKeyOnce: taking a tuple out of a shard's channel and putting it into the output is one step.
- Socks5.SendReply: the message is returned instead of written, so a failing write is not modelled; nothing is said about what the handler does with a request for a domain.
- Sniffing.ReadWriterNotice.Write: the sequential class records the callback's arguments instead of calling it, and takes a write to the connection to be done.
- ClientHello.Unmarshal: error texts, and the fields left behind by rejected data, which the relay's sniffer would read without looking at the error, are not modelled; `EncryptedClientHello` is never set by the code and has no field here.
- ClientHello.UnmarshalByByte: with first byte 0x16 it requires five bytes, which is where the code does not panic; the panic itself is not modelled.
- Relay.Teardown: only the phase from `addUserConnection` on, with the release of the IP slot; when a copy ends and why the handler's loop is left is the schedule's choice, and Relay.Progress takes copies to end once their connections have been closed.
- MQueue.MQueue.GetNode: the garbage collector may empty the pool, which an arbitrary choice between pool and a new node covers.
