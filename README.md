# Hyperletter messaging core in Dafny

This project models Hyperletter's message-passing bookkeeping. The stack has five layers, and each `.dfy` file models one of them:

- **`letters.dfy`** (module `Letters`) holds the shared letter model:
  - the letter envelope, its type codes and option flags;
  - the batching options and their defaults;
  - the batch builder, under the stated assumptions below;
  - the events a channel layer raises.
- **`dispatcher.dfy`** (module `Dispatcher`) is the send dispatcher of `Core/UnicastSocket.cs`. It keeps three FIFO queues: waiting channels, normal letters and priority letters. A loop pairs the next waiting channel with the next letter, priority letters first.
- **`hyper_batch.dfy`** (module `HyperBatch`) is the current batching decorator, `Hyperletter/Batch/BatchChannel.cs`. It mirrors every enqueued letter into a local FIFO and a batch builder. It keeps at most one Batch letter in flight, guarded by `sentBatch`, and reports the original letters when the wrapped channel confirms or fails the batch.
- **`core_batch.dfy`** (module `CoreBatch`) is the older decorator, `Core/Batch/BatchAbstractChannel.cs`. It follows the same pattern with different rules:
  - the first-enqueue time is recorded only on an empty queue;
  - `Enqueue` always accepts more;
  - a failed batch leaves the guard set;
  - received batches are unpacked here.
- **`socket.dfy`** (module `Socket`) is the socket aggregate, `Hyperletter/HyperSocket.cs`. It covers the binding→channel map and the node-id→route table, and the handlers attached to every channel: failure routing, discard, requeue, replies, batch unpacking and reconnecting.
- **`typed.dfy`** (module `Typed`) is the typed correlation layer, `Hyperletter/Typed/TypedSocket.cs`. It covers:
  - the two-part letter layout;
  - answers that copy the request's id;
  - the outstanding-request map keyed by letter id;
  - the ordered matching of registrations: the exact type first, then its interfaces.

Every stateful component follows the same three-part pattern:

1. **A pure state datatype and spec functions.** Each operation has a pure function over the state (`AfterTrySend`, `AfterEnqueue`, `OnSent`, …). Its `ensures` state what the source promises, and lemmas relate several operations.
2. **A class that updates its fields in place.** The class has the source's fields, and `State()` reads them into that datatype. Every event and operation method ensures `State() == Spec(old(State()))`. The small helper methods (`GetNextChannel`, `GetNextLetter`, `CanSend`, `Build`, `Dequeue`, `SentQueued`, `HasSomethingToSend`, `InvokeAll`, `TriggerRegistrations`) state instead what they return and which fields they change. The source's loops remain `while`/`for` loops with invariants:
   - `TrySend`;
   - the dequeue loops of `ChannelOnSent` and `FailedQueuedLetters`;
   - the part loops of `ChannelOnReceived` and `ChannelOnFailedToSend`;
   - the batch-unpacking loop of `HyperSocket.ChannelReceived`;
   - the foreach over matching registrations.
3. **Traces instead of calls out of the component.** Anything a component hands outside itself is appended to a `trace` field. This covers a letter given to a channel, an event raised, a call to the letter dispatcher, and a `SetResult` on an outstanding request. As a result, "exactly once, in FIFO order" and "nothing else changes" are statements about that trace.

Inputs that are not code are handled this way:

- **Time** is the `now` argument in milliseconds. `BatchChannel`'s stopwatch is the time it was last restarted; the older decorator keeps `firstEnqueueAt`.
- **The sliding timer** is a `timerEnabled` flag plus a handler method that is called for its expiry.
- **Serialization** is a function parameter: `serialize` and `deserialize` for letters, and `Codec` for typed values.
- **Type lookup** is a function parameter, `resolve`.
- **New letter ids** are an input `id`.
- **The outcome of a blocking wait** is an input `waitReturns`.

## Model

| member | source | states |
|---|---|---|
| Letters.TypeCode | Abstraction/LetterType.cs:2-8 | every letter type has one of the five wire codes 0x01–0x04 and 0x64 |
| Letters.TypeFromCode | Abstraction/LetterType.cs:2-8 | the inverse of the enum's name-to-code table: a byte names a declared type exactly when it is one of the five codes 0x01–0x04 and 0x64, and then it names the type with that code |
| Letters.TypeCodeRoundTrip | Abstraction/LetterType.cs:2-8 | encoding a letter type and decoding it gives it back |
| Letters.Unpack | Core/Batch/BatchAbstractChannel.cs:119-122 | one letter per part, letter i deserialized from part i, in part order |
| Letters.BuildBatch | Hyperletter/Batch/BatchChannel.cs:134 | the built batch is a Batch letter with one part per accumulated letter, part i the serialized letter i |
| Letters.BatchRoundTrip | Core/Batch/BatchAbstractChannel.cs:104-106 | unpacking a built batch with a round-tripping codec gives back the letters in order |
| Dispatcher.Step | Core/UnicastSocket.cs:50-53 | one loop iteration removes the first waiting channel and the first pending letter (priority head if any) and hands that letter to that channel |
| Dispatcher.AfterTrySend | Core/UnicastSocket.cs:48-60 | when TrySend ends no channel waits or no letter waits |
| Dispatcher.TrySendQueues | Core/UnicastSocket.cs:48-73 | with k = min(channels, letters): the first k channels leave, priority letters leave before normal ones, each queue keeps its order |
| Dispatcher.TrySendTrace | Core/UnicastSocket.cs:50-54 | the i-th hand-off pairs the i-th waiting channel with the i-th pending letter |
| Dispatcher.HandoffsAt | Core/UnicastSocket.cs:53 | position i of the hand-off events is channel i handed letter i |
| Dispatcher.TrySendConserves | Core/UnicastSocket.cs:50-54 | pending letters = handed-out letters followed by still-pending letters, as sequences and as multisets: none lost, none duplicated |
| Dispatcher.TrySendServesChannelsInOrder | Core/UnicastSocket.cs:62-66 | the channels served are the first ones to have joined, the rest wait in order |
| Dispatcher.PriorityBeforeNormal | Core/UnicastSocket.cs:68-73 | a normal letter is handed out only after every priority letter went to an earlier channel; priority letters are left over only when no channel waits |
| Dispatcher.AfterSend | Core/UnicastSocket.cs:43-46 | after Send nothing more can be paired |
| Dispatcher.SendServesOrQueues | Core/UnicastSocket.cs:43-46 | from a settled state a sent letter goes straight to the first waiting channel, or waits at the back of the normal queue |
| Dispatcher.AfterChannelCanSend | Core/UnicastSocket.cs:33-41 | a free channel takes the normal queue's head directly even while priority letters wait, channel queue untouched; otherwise it joins the waiting channels and TrySend runs |
| Dispatcher.ChannelCanSendTakesPriorityOrWaits | Core/UnicastSocket.cs:33-41 | with no normal letter, a free channel takes the oldest priority letter or else waits at the back |
| Dispatcher.AfterChannelFailedToSend | Core/UnicastSocket.cs:16-25 | a Requeue letter joins the priority queue, TrySend runs, then one Requeued event; any other letter is discarded with no queue changed |
| Dispatcher.RequeueServesOrWaits | Core/UnicastSocket.cs:16-25 | a requeued letter is handed to the first waiting channel before Requeued is raised, or waits at the back of the priority queue |
| Dispatcher.UnicastSocket.TrySend | Core/UnicastSocket.cs:48-56 | the while loop leaves exactly the state AfterTrySend gives |
| Dispatcher.UnicastSocket.Send | Core/UnicastSocket.cs:43-46 | the queues become AfterSend's |
| Dispatcher.UnicastSocket.ChannelCanSend | Core/UnicastSocket.cs:33-41 | the queues become AfterChannelCanSend's |
| Dispatcher.UnicastSocket.ChannelFailedToSend | Core/UnicastSocket.cs:16-25 | the queues become AfterChannelFailedToSend's |
| Dispatcher.UnicastSocket.CanSend | Core/UnicastSocket.cs:58-60 | true exactly when a channel waits and a letter waits |
| Dispatcher.UnicastSocket.GetNextChannel | Core/UnicastSocket.cs:62-66 | returns and removes the oldest waiting channel |
| Dispatcher.UnicastSocket.GetNextLetter | Core/UnicastSocket.cs:68-73 | returns and removes the priority head if any, else the normal head |
| HyperBatch.AfterTrySendBatch | Hyperletter/Batch/BatchChannel.cs:127-141 | with a batch in flight: CantEnqueueMore and nothing changes; otherwise a flush happens iff the builder is non-empty and (timeout, full, or elapsed ≥ MaxExtend), and CantEnqueueMore is returned iff it flushed |
| HyperBatch.Accepted | Hyperletter/Batch/BatchChannel.cs:84-92 | the letter joins queue and builder, the timer is re-armed, the stopwatch restarts only when no batch is in flight |
| HyperBatch.AfterEnqueue | Hyperletter/Batch/BatchChannel.cs:84-95 | the letter is queued; without a flush builder and trace only gain it; with a batch in flight the result is CantEnqueueMore and nothing is sent; with none, it flushes exactly when the builder becomes full or MaxExtend is not positive; CanEnqueueMore leaves exactly the accepted state; the stopwatch is the one Accepted leaves |
| HyperBatch.EnqueueFlushesOnlyWhenFull | Hyperletter/Batch/BatchChannel.cs:88-89 | with no batch in flight and MaxExtend > 0, Enqueue flushes iff the builder becomes full |
| HyperBatch.DefaultsFlushOnThe4000thLetter | Hyperletter/SocketOptions.cs:7 | with the default options an idle decorator flushes on Enqueue iff the letter is the 4000th in the builder, handing all of them over as one batch |
| HyperBatch.EnqueueKeepsBuilderTail | Hyperletter/Batch/BatchChannel.cs:91-92 | the builder stays the tail of the queue; without a flush the letters in flight are unchanged |
| HyperBatch.NoFlushBelowMaxLetters | Hyperletter/Batch/BatchChannel.cs:132 | fewer than MaxLetters enqueues from idle flush nothing and leave exactly those letters in the builder |
| HyperBatch.FlushAtMaxLetters | Hyperletter/Batch/BatchChannel.cs:132-136 | the enqueue that reaches MaxLetters flushes all of them as one batch |
| HyperBatch.EnqueueAllSnoc | Hyperletter/Batch/BatchChannel.cs:84-95 | enqueuing a sequence then one letter is enqueuing the extended sequence |
| HyperBatch.OnSent | Hyperletter/Batch/BatchChannel.cs:143-154 | the first N queued letters are dequeued and reported Sent in FIFO order, then ChannelQueueEmpty; a Batch letter clears the guard; then, exactly when the guard is clear and the flush condition holds, the builder leaves as one Batch letter, and otherwise builder and guard stay; timer and stopwatch are untouched |
| HyperBatch.MaxExtendFlushesOnBatchSent | Hyperletter/Batch/BatchChannel.cs:84-154 | a letter enqueued while a batch is in flight leaves the stopwatch alone, so a batch confirmed MaxExtend after its start flushes the builder, that letter included |
| HyperBatch.OnSentKeepsBuilderTail | Hyperletter/Batch/BatchChannel.cs:143-154 | a Sent report keeps the builder the tail of the queue |
| HyperBatch.BatchSentReportsEachInOrder | Hyperletter/Batch/BatchChannel.cs:116-118 | a timer flush and its confirmation report every queued letter Sent once, in enqueue order, leaving nothing queued and the guard clear |
| HyperBatch.FailQueued | Hyperletter/Batch/BatchChannel.cs:169-175 | every queued letter is reported FailedToSend in FIFO order and queue and builder end empty; guard, timer and stopwatch are untouched |
| HyperBatch.OnFailedToSend | Hyperletter/Batch/BatchChannel.cs:160-167 | the guard is cleared; a failed batch fails every queued letter, including later ones; a single failure is reported alone; timer and stopwatch are untouched |
| HyperBatch.BatchFailureReportsAll | Hyperletter/Batch/BatchChannel.cs:160-175 | a failed batch reports each queued letter exactly as many times as it was queued |
| HyperBatch.FailedEachCount | Hyperletter/Batch/BatchChannel.cs:171-173 | occurrences of each letter equal occurrences of its FailedToSend event |
| HyperBatch.OnDisconnected | Hyperletter/Batch/BatchChannel.cs:109-114 | timer off, guard clear, queued letters failed in order, builder empty, and only then Disconnected; the stopwatch is untouched |
| HyperBatch.OnReceived | Hyperletter/Batch/BatchChannel.cs:156-158 | every received letter, batches included, is passed up once unchanged; nothing else changes |
| HyperBatch.OnTimerElapsed | Hyperletter/Batch/BatchChannel.cs:116-119 | the timer stops and an idle decorator with letters flushes |
| HyperBatch.BatchChannel.Enqueue | Hyperletter/Batch/BatchChannel.cs:84-95 | state and result become AfterEnqueue's |
| HyperBatch.BatchChannel.TrySendBatch | Hyperletter/Batch/BatchChannel.cs:127-141 | state and result become AfterTrySendBatch's |
| HyperBatch.BatchChannel.Build | Hyperletter/Batch/BatchChannel.cs:134 | returns the Batch letter of the builder's letters and empties the builder |
| HyperBatch.BatchChannel.Dequeue | Hyperletter/Batch/BatchChannel.cs:148-150 | returns the oldest queued letter and removes it |
| HyperBatch.BatchChannel.ChannelOnSent | Hyperletter/Batch/BatchChannel.cs:143-154 | the state becomes OnSent's |
| HyperBatch.BatchChannel.SentQueued | Hyperletter/Batch/BatchChannel.cs:147-150 | the dequeue loop reports the first n queued letters Sent in order |
| HyperBatch.BatchChannel.ChannelOnReceived | Hyperletter/Batch/BatchChannel.cs:156-158 | the state becomes OnReceived's |
| HyperBatch.BatchChannel.ChannelOnFailedToSend | Hyperletter/Batch/BatchChannel.cs:160-167 | the state becomes OnFailedToSend's |
| HyperBatch.BatchChannel.FailedQueuedLetters | Hyperletter/Batch/BatchChannel.cs:169-175 | the state becomes FailQueued's |
| HyperBatch.BatchChannel.ChannelOnDisconnected | Hyperletter/Batch/BatchChannel.cs:109-114 | the state becomes OnDisconnected's |
| HyperBatch.BatchChannel.SlidingTimeoutTimerOnElapsed | Hyperletter/Batch/BatchChannel.cs:116-119 | the state becomes OnTimerElapsed's |
| CoreBatch.AfterTrySendBatch | Core/Batch/BatchAbstractChannel.cs:78-92 | a flush happens iff no batch is in flight, the builder is non-empty and (timeout, count ≥ MaxLetters, or now − firstEnqueueAt ≥ MaxExtend); it sets the guard and sends one built batch |
| CoreBatch.AfterEnqueue | Core/Batch/BatchAbstractChannel.cs:63-76 | always CanEnqueueMore; firstEnqueueAt becomes now iff the queue was empty; the letter joins the queue; exactly when no batch is in flight and the builder reaches MaxLetters or the first enqueue is MaxExtend old, the builder with the letter leaves as one Batch letter and the guard is set; otherwise the letter joins the builder and guard and trace stay |
| CoreBatch.StaleFirstEnqueueFlushes | Core/Batch/BatchAbstractChannel.cs:67-68 | with letters still queued, firstEnqueueAt is not refreshed, so an enqueue MaxExtend after it flushes at once |
| CoreBatch.OnSent | Core/Batch/BatchAbstractChannel.cs:94-102 | N dequeued letters reported Sent in FIFO order, a Batch letter clears the guard, the flush is not re-evaluated |
| CoreBatch.OnReceived | Core/Batch/BatchAbstractChannel.cs:104-110 | a Batch letter yields one Received per part, deserialized, in part order; others are passed once unchanged |
| CoreBatch.ReceivedBatchYieldsOriginals | Core/Batch/BatchAbstractChannel.cs:104-106 | a received batch built from some letters yields exactly those letters, in order |
| CoreBatch.OnFailedToSend | Core/Batch/BatchAbstractChannel.cs:112-117 | N dequeued letters reported FailedToSend in FIFO order, the guard left as it was; a non-batch failure is passed on as is; builder, timer and first-enqueue time are untouched |
| CoreBatch.OnTimerElapsed | Core/Batch/BatchAbstractChannel.cs:54-57 | the timer stops and an idle decorator with letters flushes; queue and first-enqueue time are untouched, and nothing else changes without a flush |
| CoreBatch.FailedBatchBlocksFlushes | Core/Batch/BatchAbstractChannel.cs:80-81 | after a batch failure no enqueue and no timer expiry sends anything; letters only accumulate |
| CoreBatch.GuardedEnqueuesSendNothing | Core/Batch/BatchAbstractChannel.cs:63-81 | with the guard set, enqueues only grow the builder |
| CoreBatch.BatchAbstractChannel.Enqueue | Core/Batch/BatchAbstractChannel.cs:63-76 | state and result become AfterEnqueue's |
| CoreBatch.BatchAbstractChannel.TrySendBatch | Core/Batch/BatchAbstractChannel.cs:78-88 | the state becomes AfterTrySendBatch's |
| CoreBatch.BatchAbstractChannel.HasSomethingToSend | Core/Batch/BatchAbstractChannel.cs:90-92 | true iff the builder is non-empty |
| CoreBatch.BatchAbstractChannel.Dequeue | Core/Batch/BatchAbstractChannel.cs:99-101 | returns the oldest queued letter and removes it |
| CoreBatch.BatchAbstractChannel.ChannelOnSent | Core/Batch/BatchAbstractChannel.cs:94-102 | the loop leaves the state OnSent gives |
| CoreBatch.BatchAbstractChannel.ChannelOnReceived | Core/Batch/BatchAbstractChannel.cs:104-110 | the part loop leaves the state OnReceived gives |
| CoreBatch.BatchAbstractChannel.ChannelOnFailedToSend | Core/Batch/BatchAbstractChannel.cs:112-122 | the part loop leaves the state OnFailedToSend gives |
| CoreBatch.BatchAbstractChannel.SlidingTimeoutTimerOnElapsed | Core/Batch/BatchAbstractChannel.cs:54-57 | the state becomes OnTimerElapsed's |
| Socket.AfterSend | Hyperletter/HyperSocket.cs:57-59 | the letter is handed to the dispatcher and nothing else changes |
| Socket.AfterAnswer | Hyperletter/HyperSocket.cs:61-68 | the reply is enqueued only on the channel routed for Address[0]; no route: nothing changes; no address: the indexing fails and nothing changes |
| Socket.AnswerBypassesDispatcher | Hyperletter/HyperSocket.cs:61-68 | an answer never hands anything to the dispatcher |
| Socket.AfterHookup | Hyperletter/HyperSocket.cs:78-93 | the channel is stored under its binding, replacing any previous one, then initialized |
| Socket.AfterConnect | Hyperletter/HyperSocket.cs:50-55 | a new outbound channel is allocated, hooked up under the binding and told to connect |
| Socket.ConnectAllocatesFresh | Hyperletter/HyperSocket.cs:50-55 | the connected channel is one the socket did not know |
| Socket.AfterChannelInitialized | Hyperletter/HyperSocket.cs:95-97 | the route for the peer node is added only when none exists |
| Socket.FirstChannelWins | Hyperletter/HyperSocket.cs:95-97 | of two channels to the same node, the first initialized keeps the route |
| Socket.AfterChannelAvailable | Hyperletter/HyperSocket.cs:155-157 | the channel is handed to the dispatcher and nothing else changes |
| Socket.AfterInitializedRaised | Hyperletter/HyperSocket.cs:87-89 | an Initialized event updates the route table first, then hands the channel to the dispatcher |
| Socket.AfterChannelDisconnected | Hyperletter/HyperSocket.cs:104-116 | dispose, remove the binding entry and the peer's route, notify, and reconnect the binding only for an outbound channel |
| Socket.DisconnectReconnectsOutboundOnly | Hyperletter/HyperSocket.cs:104-116 | afterwards the route is gone, and the binding holds a channel iff the lost one was outbound; that channel is one the socket did not know |
| Socket.LaterDisconnectDropsEarlierRoute | Hyperletter/HyperSocket.cs:104-116 | when a second channel to a node disconnects, the node loses its route although the first channel, which held it, is still bound |
| Socket.ReceivedEvents | Hyperletter/HyperSocket.cs:118-128 | no subscriber: nothing; a Batch letter: one Received per part; otherwise exactly one |
| Socket.ReceivedBatchInPartOrder | Hyperletter/HyperSocket.cs:122-124 | part i is announced at position i, deserialized |
| Socket.ReceivedBatchYieldsOriginals | Hyperletter/HyperSocket.cs:122-124 | a received batch built from some letters is announced as exactly those letters, in order |
| Socket.AfterChannelReceived | Hyperletter/HyperSocket.cs:118-128 | receiving only raises events |
| Socket.AfterChannelSent | Hyperletter/HyperSocket.cs:130-132 | Sent is passed on only to a subscriber |
| Socket.AfterChannelConnected | Hyperletter/HyperSocket.cs:99-102 | Connected is passed on only to a subscriber |
| Socket.FailureAction | Hyperletter/HyperSocket.cs:134-142 | a failed letter is requeued iff it is not Multicast and asks for Requeue |
| Socket.DiscardEvents | Hyperletter/HyperSocket.cs:144-147 | Discarded is raised iff someone listens and SilentDiscard is clear; nothing else |
| Socket.RequeueEvents | Hyperletter/HyperSocket.cs:149-153 | the letter goes back to the dispatcher, then Requeued once if someone listens |
| Socket.AfterChannelFailedToSend | Hyperletter/HyperSocket.cs:134-142 | the failure policy picks Requeue or Discard; no map changes |
| Socket.FailedLetterRequeuedIff | Hyperletter/HyperSocket.cs:134-153 | a failed letter reaches the dispatcher again iff Requeue is set and Multicast is not |
| Socket.HyperSocket.Connect | Hyperletter/HyperSocket.cs:50-55 | state and id become AfterConnect's |
| Socket.HyperSocket.Send | Hyperletter/HyperSocket.cs:57-59 | the state becomes AfterSend's |
| Socket.HyperSocket.Answer | Hyperletter/HyperSocket.cs:61-68 | state and outcome become AfterAnswer's |
| Socket.HyperSocket.HookupChannel | Hyperletter/HyperSocket.cs:78-93 | the state becomes AfterHookup's |
| Socket.HyperSocket.ChannelInitialized | Hyperletter/HyperSocket.cs:95-97 | the state becomes AfterChannelInitialized's |
| Socket.HyperSocket.ChannelAvailable | Hyperletter/HyperSocket.cs:155-157 | the state becomes AfterChannelAvailable's |
| Socket.HyperSocket.OnChannelInitialized | Hyperletter/HyperSocket.cs:87-89 | the state becomes AfterInitializedRaised's |
| Socket.HyperSocket.ChannelConnected | Hyperletter/HyperSocket.cs:99-102 | the state becomes AfterChannelConnected's |
| Socket.HyperSocket.ChannelDisconnected | Hyperletter/HyperSocket.cs:104-116 | the state becomes AfterChannelDisconnected's |
| Socket.HyperSocket.ChannelReceived | Hyperletter/HyperSocket.cs:118-128 | the part loop leaves the state AfterChannelReceived gives |
| Socket.HyperSocket.ChannelSent | Hyperletter/HyperSocket.cs:130-132 | the state becomes AfterChannelSent's |
| Socket.HyperSocket.ChannelFailedToSend | Hyperletter/HyperSocket.cs:134-142 | the state becomes AfterChannelFailedToSend's |
| Socket.HyperSocket.Discard | Hyperletter/HyperSocket.cs:144-147 | appends DiscardEvents |
| Socket.HyperSocket.Requeue | Hyperletter/HyperSocket.cs:149-153 | appends RequeueEvents |
| Typed.CreateLetter | Hyperletter/Typed/TypedSocket.cs:144-152 | exactly two parts: serialized metadata naming the value's type, then the serialized value |
| Typed.CreateAnswer | Hyperletter/Typed/TypedSocket.cs:138-142 | the answer's id is the request's id; parts and options as CreateLetter's |
| Typed.AnswerIgnoresFreshId | Hyperletter/Typed/TypedSocket.cs:138-142 | the fresh letter's own id plays no part in an answer |
| Typed.LetterLayoutRoundTrip | Hyperletter/Typed/TypedSocket.cs:144-152 | the receiving side reads the value's type name back from part 0 |
| Typed.Get | Hyperletter/Typed/TypedSocket.cs:90 | a type with no entry has no registrations |
| Typed.AfterRegister | Hyperletter/Typed/TypedSocket.cs:25-31 | the registration is appended to its type's list; other types unchanged |
| Typed.MatchingRegistrations | Hyperletter/Typed/TypedSocket.cs:89-97 | the exact type's registrations come first, then the interfaces' in interface order |
| Typed.FromInterfacesMembership | Hyperletter/Typed/TypedSocket.cs:93-96 | a registration comes from the interfaces iff it is registered for one of them |
| Typed.MatchingMembership | Hyperletter/Typed/TypedSocket.cs:89-97 | a registration matches iff it is registered for the type or one of its interfaces |
| Typed.InvokeEach | Hyperletter/Typed/TypedSocket.cs:85-86 | one invocation per registration, in order |
| Typed.AfterTriggerOutstanding | Hyperletter/Typed/TypedSocket.cs:99-108 | empty or unknown id: nothing changes; known id: SetResult once and the key removed |
| Typed.AfterReceived | Hyperletter/Typed/TypedSocket.cs:69-80 | part count ≠ 2 or an unknown type: nothing changes; otherwise the outstanding is resolved and then every matching registration is invoked |
| Typed.ReceivedOnlyRemoves | Hyperletter/Typed/TypedSocket.cs:69-108 | receiving never adds an outstanding, removes at most the letter's id, and leaves the registry alone |
| Typed.AfterSend | Hyperletter/Typed/TypedSocket.cs:33-35 | the letter is sent; nothing is kept |
| Typed.AddAndSend | Hyperletter/Typed/TypedSocket.cs:56-58 | a duplicate id is refused with nothing sent; otherwise the outstanding is added and the letter sent |
| Typed.AddSendWaitRemove | Hyperletter/Typed/TypedSocket.cs:40-50 | the map ends as it began and the id is absent after return, normal or exceptional; a refused add changes nothing |
| Typed.AfterSendBlocking | Hyperletter/Typed/TypedSocket.cs:37-51 | the request carries UniqueId, is sent, and its id is absent after return |
| Typed.AfterSendWithCallback | Hyperletter/Typed/TypedSocket.cs:53-59 | the callback stays outstanding under the fresh id and exactly the request letter, with UniqueId added, is sent; the registry is untouched; a duplicate id is refused and changes nothing |
| Typed.AfterAnswer | Hyperletter/Typed/TypedSocket.cs:110-112 | exactly one letter is sent: a User letter with the request's id, the given options, no address, and the type name and value as its two parts; nothing else changes |
| Typed.AfterAnswerWithCallback | Hyperletter/Typed/TypedSocket.cs:114-120 | unless the request's id is already outstanding, the callback waits under it and exactly one letter is sent: the answer with the request's id, Answer, UniqueId and Ack added, and the type name and value as parts; the registry is untouched; a duplicate id changes nothing |
| Typed.AfterAnswerBlocking | Hyperletter/Typed/TypedSocket.cs:122-136 | the answer is sent and the request's id is absent after return |
| Typed.CallbackReplyResolvesOnce | Hyperletter/Typed/TypedSocket.cs:53-59 | a reply built by CreateAnswer resolves the callback once with the reply and removes it; the same reply again resolves nothing |
| Typed.ExactTypeHandlersFirst | Hyperletter/Typed/TypedSocket.cs:82-97 | the exact type's i-th handler is invoked at position i, before any interface handler |
| Typed.TypedSocket.Register | Hyperletter/Typed/TypedSocket.cs:25-31 | the state becomes AfterRegister's |
| Typed.TypedSocket.Send | Hyperletter/Typed/TypedSocket.cs:33-35 | the state becomes AfterSend's |
| Typed.TypedSocket.SendBlocking | Hyperletter/Typed/TypedSocket.cs:37-51 | state and outcome become AfterSendBlocking's |
| Typed.TypedSocket.Add | Hyperletter/Typed/TypedSocket.cs:40-42 | state and outcome become AddAndSend's: a duplicate id is refused, otherwise the outstanding is stored and the letter sent |
| Typed.TypedSocket.SendAndWait | Hyperletter/Typed/TypedSocket.cs:37-51 | state and outcome become AddSendWaitRemove's: the outstanding map ends as it began |
| Typed.TypedSocket.SendWithCallback | Hyperletter/Typed/TypedSocket.cs:53-59 | state and outcome become AfterSendWithCallback's |
| Typed.TypedSocket.Answer | Hyperletter/Typed/TypedSocket.cs:110-112 | the state becomes AfterAnswer's |
| Typed.TypedSocket.AnswerWithCallback | Hyperletter/Typed/TypedSocket.cs:114-120 | state and outcome become AfterAnswerWithCallback's |
| Typed.TypedSocket.AnswerBlocking | Hyperletter/Typed/TypedSocket.cs:122-136 | state and outcome become AfterAnswerBlocking's |
| Typed.TypedSocket.SocketOnReceived | Hyperletter/Typed/TypedSocket.cs:69-80 | the state becomes AfterReceived's |
| Typed.TypedSocket.TriggerRegistrations | Hyperletter/Typed/TypedSocket.cs:82-87 | the loop invokes every matching registration in order |
| Typed.TypedSocket.InvokeAll | Hyperletter/Typed/TypedSocket.cs:85-86 | the trace gains one invocation per registration, in order |
| Typed.TypedSocket.TriggerOutstanding | Hyperletter/Typed/TypedSocket.cs:99-108 | the state becomes AfterTriggerOutstanding's |

## Left out

**Not modelled at all**
- Concurrency is not modelled: `lock` sections, concurrent collections and events raised from other threads. Every operation runs alone and to completion.
- Handlers that re-enter the socket are not modelled, for example a `Received` subscriber that sends from inside the event.
- Time is an input. Timers, `Stopwatch` and `DateTime.Now` are replaced by `now` and `timerEnabled`, and timer expiry is an event the environment delivers.
- Serialization is an opaque function parameter. This covers `LetterSerializer`, `ITransportSerializer` and the `BatchLetterBuilder` internals.
- Five more pieces of code are not part of this model, so the model only records that each is invoked, as a trace event:
  - the batch builder;
  - `LetterDispatcher`;
  - the channels (`OutboundChannel`, `InboundChannel`);
  - `AbstractHyperSocket.Discard`;
  - `Letter`'s constructor.
- Batch builder assumptions:
  - Build returns one Batch letter with one part per accumulated letter, and empties the builder.
  - IsFull means the count is at least MaxLetters.
  - A built batch has an empty id, no options and no address. `CreateLetter` gives a User letter.
- The letter codec is not modelled, so the id a new letter receives is an input.
- The channel connect, handshake and heartbeat state machine is outside the model.
- Passthrough events are not modelled. Each only re-raises the wrapped channel's event with the decorator as sender, and touches no state of the decorator:
  - ChannelConnected forwarding in both decorators (`Hyperletter/Batch/BatchChannel.cs:28`, `Core/Batch/BatchAbstractChannel.cs:41`);
  - Connecting, Disconnecting and Initialized forwarding in both decorators;
  - the Core decorator's ChannelDisconnected forwarding (`Core/Batch/BatchAbstractChannel.cs:42`). On a disconnect that decorator keeps its queue, builder and guard; only the current decorator clears them (`HyperBatch.OnDisconnected`);
  - the Core decorator's ChannelQueueEmpty forwarding;
  - the current decorator's subscription to the wrapped channel's ChannelQueueEmpty, whose handler is empty (`Hyperletter/Batch/BatchChannel.cs:30-32`); the decorator raises its own ChannelQueueEmpty from `ChannelOnSent`, which `HyperBatch.OnSent` models;
  - `ReceivedEventArgs`.
- `HyperSocket.Bind`, `Dispose`, listener wiring, `SocketListener` and `DefaultTypedHandlerFactory` are left out. They are I/O and reflection.

**Inputs in place of code that is not shown**
- Channels reach the socket as `ChannelView` values. The handler signatures in the source disagree with each other, so the model keeps only the channel that raised the event.
- `ConcurrentQueue.Dequeue`, the extension method both decorators call, is not part of this model. Its behaviour on an empty queue is therefore unknown, and `OnSent` in both decorators, and `OnFailedToSend` in the Core one, require as many queued letters as the report accounts for.
- `DictionaryList.Get` is not part of this model. It is modelled as giving the empty list for a type with no entry.
- `Type.GetType` and `GetInterfaces` are the `resolve` parameter.
- The blocking `Wait` is the `waitReturns` input. The value a blocking call returns, `outstanding.Result`, is not modelled, and neither is any `SetResult` a reply may deliver while the call waits.
- `Registration.Invoke`, `Outstanding.SetResult` and the reply callbacks are trace events. What they do is not part of this model.

**Deliberate simplifications**
- Letters.TypeFromCode: gives None for a byte that is none of the enum's five codes. A C# cast from `byte` to `LetterType` does not reject such a byte, and no code in this core decodes one; the function states which bytes name a declared type.
- Dispatcher.AfterChannelFailedToSend: records `Requeued` whether or not a subscriber is attached. `Core/UnicastSocket.cs` checks for one, but the dispatcher's subscribers are outside this model.

**Behaviour of the source worth noting**
- `BatchChannel.Enqueue` restarts the stopwatch on every enqueue while no batch is in flight. As a result, MaxExtend never triggers a flush from `Enqueue` when it is positive (`EnqueueFlushesOnlyWhenFull`). It can still trigger one from the re-evaluation in `ChannelOnSent`.
- `TypedSocket.Answer<T>` sends through the socket's `Send`, not its `Answer`. The reply therefore goes through the dispatcher like any other letter.
- `BatchAbstractChannel.ChannelOnFailedToSend` leaves the guard set after a failed batch. That decorator then never flushes again until a Batch letter is reported Sent (`FailedBatchBlocksFlushes`).
- `HyperSocket.ChannelDisconnected` removes the route by the peer's node id alone (`Hyperletter/HyperSocket.cs:109`), while a route goes to the first channel initialized to that node. When a second channel to the same node disconnects, the node loses its route although the first channel is still bound, and answers to it are dropped until a channel to it initializes again (`LaterDisconnectDropsEarlierRoute`).
