# SensorGateway: a verified model

A Dafny model of the gateway's data-flow engine, its sensor reconnection and its translators, with proofs of
the properties the design rests on. `dafny verify dfyconfig.toml` checks the whole project.

## What is modelled

- **Containers** (`PointerArray`, `PointerListSpec`, `PointerListOrder`, `PointerList`, `BoundedFifo`,
  `PointerQueueSpec`, `PointerQueue`): the constant-sized pointer list and queue, as objects over an array with
  two markers and a counter, proved against functions on slots; the list against a bounded multiset, the queue
  against a bounded FIFO.
- **Data flow** (`RingSpec`, `SchedulerSpec`, `Engine`, `DataFlow`, `Delivery`): the 256-pad ring buffer with one
  writer and a cursor per consumer, the scheduler with its ready and notReady lists, any number of both linked in
  any way. `DataFlow` holds the classes, `Delivery` puts them together; the other modules hold the functions they
  are proved against and what every run of those keeps. A write with its notification, a turn of the drain loop and
  the exit test are atomic there.
- **Races** (`FineGrained`): one writer and one scheduler with every shared access a step of its own, since the
  code holds no lock across a write, across a consumption or across the exit test.
- **Pipeline** (`Stage`, `Pipeline`, `PipelineDrain`, `PipelineTermination`, `PipelineRuns`, `PipelineOrder`,
  `PipelineInputs`): the seven threads of a sensor access link, from the start to the end of terminateAndJoin. A
  thread that has several data to hand over may emit them to different buffers in any order; to one buffer it keeps
  their order. The main results speak of the steps of a run only, not of what the state remembers of them.
- **Reconnection** (`Errors`, `RecoverySpec`, `SensorCommunicator`): the mutually recursive open, close and
  error handling, against a strategy that fails as a script says.
- **Translation** (`FrameSpec`, `Reports`, `FrameAssembly`, `Translation`, `RawData`): the message state machine of
  the Guardian and AWL strategies (over reals), compared with what the messages report, and the Guardian's raw-data
  stage (over 16-bit words).
- **Gateway**: the pipeline around the translation, from the sensor's messages to the server's frames.

Assumptions, each stated as a precondition where it is used: stored pointers are not null and capacities are at
most 255 (the counter is 8 bits wide); buffers are linked before their first write and no write finds a reader
more than 254 data behind, except where a statement says what happens otherwise; a track message names one of
the 16 pixels and a velocity message a track of the frame.

## Where the code differs from its documentation

- ConstantSizedPointerList is announced as a FIFO container. It is not: a pointer stored in the one free slot
  under the consumer marker is served first. `PointerListOrder` says exactly when it behaves as a FIFO.
- `reverseEndiannessOfInt16` swaps bytes only for samples that are not negative (or end in 0xFF).
- A buffer linked after its first writes is listed as being without data although its cursor lags.
- Between the steps that the design treats as one, wake-ups and data can be lost and stale data handed over;
  `FineGrained` gives such runs, exactly which runs keep the ready list right, and exactly which exits lose data.
- terminateAndJoin can leave the sensor's connection open, for two reasons: it closes before it orders the thread
  to end, so a fetch that fails afterwards reopens it; and its own closing ends on an open when the close fails
  with errors that ask for one. `TerminationEndsOpen` is the exact condition, `CloseMayOpen` and
  `LateFetchReopens` are the two causes by themselves.
- Recovering from an error can open a connection that it has just opened (`OpensAnOpenConnection`).
- The AWL tests expect unscaled distances and accelerations; the code divides them by 100, and so does the model.

## Model

| member | source | states |
|---|---|---|
| Gateway.ServerGetsWhatTheSensorSaid | sensor-gateway/application/SensorAccessLink.hpp:96-105 | For every interleaving of the gateway's threads and either sensor family, once all the orders of start and terminateAndJoin were carried out: the frames of the send steps are one per end-of-frame message among the batches of the fetch steps, in order, each holding exactly what its own messages reported (first 16 tracks per pixel in arrival order, last velocity per track, defaults elsewhere); and the error handler has been handed, from the translator, exactly the codes of the refused messages, in order |
| Gateway.ServerGetsTheRawData | sensor-gateway/application/SensorAccessLink.hpp:96-105 | The same for the Guardian's raw data: every non-default cycle of the fetch steps, once, in order, with its channels ordered and its samples reversed, and no complaint |
| Gateway.AwlRawDataAreDropped | sensor-gateway/data-translation/AWLTranslationStrategy.cpp:53-55 | The AWL's raw data, whose translation is a stub, never reach the server, in any run |
| Gateway.TranslatesStream | sensor-gateway/data-translation/GuardianTranslationStrategy.cpp:35-69 | Consuming messages one by one through the pipeline's translator yields the frames of the whole stream and the codes of its refused messages, and leaves the frame under construction that the stream leaves |
| PipelineRuns.TerminationDrains | sensor-gateway/application/SensorAccessLink.hpp:96-105 | For any translation and any interleaving, from the steps alone: once all the orders were carried out, what the send steps sent is exactly the translation of all non-default messages and raw data of the fetch steps, in order, once each; and what was handled is every error that any step met (fetching, sending, opening, closing) or that the translation raised, those of one thread and source in their order |
| PipelineRuns.NothingIsInvented | sensor-gateway/application/SensorAccessLink.hpp:83-94 | From the steps alone, at any moment of any run: what the translator consumed is a prefix of the non-default data fetched, what was sent a prefix of its translation, and the errors handled, thread by thread, a prefix of those met or raised |
| PipelineRuns.RunBrings | sensor-gateway/sensor-communication/SensorCommunicator.hpp:113-159 | After every run, what the state has logged as fetched, consumed, sent, handled and raised is what the steps of the run brought, in order: no batch is cut short and no error met is dropped |
| PipelineRuns.RunFollowsOrders | sensor-gateway/application/SensorAccessLink.hpp:80-105 | The orders given in a run are a beginning of this list: open the server's connection, open the sensor's, start its thread; close the sensor's connection, tell its thread to end, join it; stop and join the two translator schedulers, then the two of the server; close the server's connection; stop and join the error scheduler |
| PipelineOrder.StepsComeInOrder | sensor-gateway/application/SensorAccessLink.hpp:80-105 | In every run every step comes in its order: taken by a thread that has not ended and writing for a reader that has not ended; fetches of messages and raw data in turn, after the sensor's thread was started and before it is joined; sending after the server's connection was opened and before it is closed; a thread ends after it was told to, the orders come as listed, each join after the end of its thread, the close of the server's connection after the end of both threads that send |
| PipelineOrder.EverythingIsSentBeforeClosing | sensor-gateway/application/SensorAccessLink.hpp:97-102 | When the server's connection is closed, everything that was fetched has been translated and sent |
| PipelineOrder.ServerThreadsHaveEnded | sensor-gateway/application/SensorAccessLink.hpp:97-102 | In any state in which the close of the server's connection is next, both server schedulers have ended drained and no frame waits anywhere |
| PipelineInputs.AnyInputCanCome | sensor-gateway/sensor-communication/SensorCommunicator.hpp:104-145 | The runs leave the outside free: for any rounds of fetches with any data and errors and any errors of the four connection orders there is a complete run that brings just these |
| PipelineInputs.AnyErrorsCanBeMet | sensor-gateway/sensor-communication/SensorCommunicator.hpp:147-155 | Whether a fetch, a sending or the opening or closing of a connection can happen does not depend on the errors it meets |
| PipelineTermination.NeverStuck | sensor-gateway/application/SensorAccessLink.hpp:96-105 | In the runs in which no write laps a reader (the model lets such a write wait, the source never waits): until terminateAndJoin has returned, some thread can always take a step, even if nothing new comes from outside, although joins wait for their thread |
| PipelineTermination.EveryStepWindsDown | sensor-gateway/application/SensorAccessLink.hpp:96-105 | In the same runs: every step that brings nothing new from outside, whichever thread takes it, decreases a well-founded measure: orders left, threads left, work left |
| PipelineTermination.ShutdownFinishes | sensor-gateway/application/SensorAccessLink.hpp:96-105 | In the same runs: every run, from any point and with any data under way, can be continued until terminateAndJoin has returned |
| PipelineDrain.RunKeeps | sensor-gateway/application/SensorAccessLink.hpp:83-105 | The pipeline's invariant (what was fetched, translated and raised is written or waiting; threads end drained, each after its own termination order) holds after every run |
| PipelineDrain.EndsDrained | sensor-gateway/common/data-flow/DataProcessingScheduler.hpp:102-114 | A thread whose loop test fails has handed over everything its buffers were ever given |
| PipelineDrain.ReadersRun | sensor-gateway/application/SensorAccessLink.hpp:96-101 | While a thread is busy or may become busy, the thread that reads what it writes has not ended |
| Engine.ReadyExactlyWhenPending | sensor-gateway/common/data-flow/RingBuffer.hpp:115-124 | At every point of every run of any number of buffers and schedulers: a linked buffer is in the ready list iff the scheduler's cursor differs from the writer, iff something that the write steps wrote was not delivered; what was delivered is a prefix of what they wrote; at most 255 data are pending |
| Engine.ExitLosesNothing | sensor-gateway/common/data-flow/DataProcessingScheduler.hpp:112-114 | A scheduler whose exit test passes was told to terminate and has delivered all that its buffers were ever given |
| Engine.LateLinkAgreement | sensor-gateway/common/data-flow/RingBuffer.hpp:103-109 | Linking a buffer after w writes puts it among the buffers without data; list and cursor then agree iff w is a multiple of 256 |
| Engine.ServeHandsOver | sensor-gateway/common/data-flow/DataProcessingScheduler.hpp:104-108 | A turn with a ready buffer hands over the next datum of that buffer's history not handed over yet, and changes nothing else but that buffer's cursor and readiness |
| Engine.ApplyKeeps | sensor-gateway/common/data-flow/RingBuffer.hpp:70-83 | Every step (link, write with notification, turn, termination order) keeps the agreement of rings, lists and logs for all pairs of buffer and scheduler |
| Engine.WriteFitsChannel | sensor-gateway/common/data-flow/RingBuffer.hpp:70-74 | A write that finds a consumer at most 254 behind leaves it ready, lagging and in order |
| Engine.ConsumeFitsChannel | sensor-gateway/common/data-flow/RingBuffer.hpp:77-83 | A consumption by a ready consumer hands over its next write, and it stays ready exactly when it still lags |
| Engine.TurnProgress | sensor-gateway/common/data-flow/DataProcessingScheduler.hpp:102-110 | A turn keeps the served buffer first as long as it has data, and otherwise takes exactly it out of the ready list |
| RingSpec.RunArithmetic | sensor-gateway/common/data-flow/RingBuffer.hpp:70-74 | With no assumption on lag: each pad holds the latest write of its residue modulo 256 (or the default), cursors stand at the number of advances modulo 256, and a consumer looks caught up iff writes minus advances is a multiple of 256 |
| RingSpec.DeliversInOrder | sensor-gateway/common/data-flow/RingBuffer.hpp:77-87 | For every interleaving, a consumer never lapped has been delivered exactly the contiguous slice of the history starting at 256*floor(w/256), w being the number of writes at its link |
| RingSpec.ConsumeDeliversNext | sensor-gateway/common/data-flow/RingBuffer.hpp:147-154 | An advancing consumption delivers the next undelivered write; it advances iff something is unread |
| RingSpec.LappedLooksEmpty | sensor-gateway/common/data-flow/RingBuffer.hpp:126-132 | The bound is exact: after one more write a consumer in step still lags iff it was at most 254 behind |
| RingSpec.ConsumersAreIndependent | sensor-gateway/common/data-flow/RingBuffer.hpp:134-154 | A consumer's stream depends only on the writes and on its own links and consumptions, not on other consumers |
| RingSpec.ConsumeTakesPending | sensor-gateway/common/data-flow/RingBuffer.hpp:77-83 | A consumption takes the first of the data between cursor and writer and moves no other consumer |
| RingSpec.WriteArithmetic | sensor-gateway/common/data-flow/RingBufferPad.hpp:70-76 | After a write every pad holds the latest write of its number modulo 256 and the writer stands at the number of writes modulo 256: the write has replaced one pad and moved no consumer |
| RingSpec.LagDecidesWhatIsLeft | sensor-gateway/common/data-flow/RingBuffer.hpp:77-83 | However far a consumer lags, exactly the last (lag modulo 256) data written are left for it, in order: one left 256 behind or more loses the writes before them |
| FineGrained.DeliversInOrder | sensor-gateway/common/data-flow/RingBuffer.hpp:70-83 | With every shared access a step of its own, advances never exceed the stores and the k-th advancing turn delivers the datum of the k-th store, although the datum is copied after the cursor moved |
| FineGrained.CopyFindsItsDatum | sensor-gateway/common/data-flow/DataProcessingScheduler.hpp:105-107 | The reference taken before the advance still shows its datum when it is copied, as long as no write starts with more than 254 unread |
| FineGrained.LateWriteSpoilsTheCopy | sensor-gateway/common/data-flow/DataProcessingScheduler.hpp:105-107 | A write started with 255 unread replaces the datum being copied: the bound 254 is exact |
| FineGrained.AgreesExactlyWhenHarmless | sensor-gateway/common/data-flow/RingBuffer.hpp:115-124 | Exact condition at the grain of single accesses: list and data agree throughout a run (in every state with no write under way the scheduler ends its turn with the buffer ready iff it has data) iff every activation is harmless, that is, does not fall between the last location test and the deactivation of a turn with data pending, nor after the turn or its deactivation with nothing pending |
| FineGrained.HarmShows | sensor-gateway/common/data-flow/RingBuffer.hpp:119-120 | For one activation: the buffer is ready without data, or has data without being ready, at the end of the scheduler's turn iff the activation was not harmless |
| FineGrained.HarmlessRunsDeliver | sensor-gateway/common/data-flow/RingBuffer.hpp:77-83 | In a run of harmless activations no stale datum is handed over, and between turns the buffer is ready iff a datum has not been handed over |
| FineGrained.NothingStaleIfActivatedAtOnce | sensor-gateway/common/data-flow/RingBuffer.hpp:118-120 | What the location test before an activation is for: if no step comes between a test that found the cursor elsewhere and its activation, no stale datum is ever handed over, whatever else interleaves |
| FineGrained.ExitLosesWhatCameBetween | sensor-gateway/common/data-flow/DataProcessingScheduler.hpp:112-114 | Leaving after the second half of the exit test loses data iff the list became ready after the first half |
| FineGrained.WakeUpCanBeLost | sensor-gateway/common/data-flow/RingBuffer.hpp:119-120 | A concrete run in which a written datum is never delivered because its activation meets a deactivation |
| FineGrained.ActivationCanBeSpurious | sensor-gateway/common/data-flow/RingBuffer.hpp:119-120 | A concrete run in which a late activation makes the scheduler hand over a pad that was never written |
| FineGrained.ExitCanLoseData | sensor-gateway/common/data-flow/DataProcessingScheduler.hpp:112-114 | A concrete run in which a datum written between the halves of the exit test is lost |
| SchedulerSpec.RunPartitions | sensor-gateway/common/data-flow/DataProcessingScheduler.hpp:63-91 | Over every sequence of calls the two lists partition the accepted links, each held once, sizes adding up to the counter within the declared inputs, and no inner store or removal ever throws |
| SchedulerSpec.LinkKeepsPartition | sensor-gateway/common/data-flow/DataProcessingScheduler.hpp:63-71 | A link is refused for a linked buffer, a stopped scheduler or a full one, in that order, without any change; otherwise it adds the buffer to the ones without data |
| SchedulerSpec.ActivateKeepsPartition | sensor-gateway/common/data-flow/DataProcessingScheduler.hpp:73-81 | Activation moves a buffer without data to the ready list, does nothing to a ready one and refuses only an unlinked one |
| SchedulerSpec.DeactivateKeepsPartition | sensor-gateway/common/data-flow/DataProcessingScheduler.hpp:83-91 | Deactivation is the reverse move |
| SchedulerSpec.DrainsOneInputFirst | sensor-gateway/common/data-flow/DataProcessingScheduler.hpp:102-110 | Once a peek returned a buffer, every later peek returns it through any other calls until that buffer is deactivated |
| SchedulerSpec.PeekStartsService | sensor-gateway/common/container/ConstantSizedPointerList.hpp:58-64 | The buffer a first peek chooses is the occupied slot nearest to the marker in circular order |
| SchedulerSpec.NonEmptyStays | sensor-gateway/common/data-flow/DataProcessingScheduler.hpp:104-105 | A ready list seen non-empty stays so until the following peek, which never throws, whatever other threads call in between |
| PointerListSpec.Refinement | sensor-gateway/common/container/ConstantSizedPointerList.hpp:43-80 | From the fresh list, every sequence of calls answers as a bounded multiset would, duplicates included, and the counter is the number of occupied slots |
| PointerListSpec.StoreAdds | sensor-gateway/common/container/ConstantSizedPointerList.hpp:43-48 | A store adds the pointer once, or refuses exactly when every slot is taken |
| PointerListSpec.ConsumeTakes | sensor-gateway/common/container/ConstantSizedPointerList.hpp:50-56 | A consumption removes the pointer it returns once, or refuses exactly when nothing is held |
| PointerListSpec.PeekKeeps | sensor-gateway/common/container/ConstantSizedPointerList.hpp:58-64 | A peek returns a held pointer and keeps the contents |
| PointerListSpec.RemoveTakes | sensor-gateway/common/container/ConstantSizedPointerList.hpp:72-80 | A removal takes one occurrence, or refuses exactly when there is none |
| PointerListSpec.HoldsIsMembership | sensor-gateway/common/container/ConstantSizedPointerList.hpp:66-70 | contains tells membership |
| PointerListOrder.StoreInserts | sensor-gateway/common/container/ConstantSizedPointerList.hpp:43-48 | A store inserts somewhere in the order of service and moves nothing else |
| PointerListOrder.RemoveTakesOut | sensor-gateway/common/container/ConstantSizedPointerList.hpp:72-80 | A removal takes the pointer out of the order of service at the lowest slot that holds it, and moves neither the others nor the markers |
| PointerListOrder.ServesHead | sensor-gateway/common/container/ConstantSizedPointerList.hpp:50-64 | Peek and consume hand out the head of the order of service; consuming leaves its tail |
| PointerListOrder.StoreGoesLast | sensor-gateway/common/container/ConstantSizedPointerList.hpp:25-30 | In a list used as a queue a new pointer goes last iff it does not take the one free slot under the consumer marker, where it goes first |
| PointerListOrder.StoreGoesLastUnlessBehind | sensor-gateway/common/container/ConstantSizedPointerList.hpp:43-48 | In any consistent list, removals included, a new pointer is served last iff no held pointer lies between its slot and the consumer marker |
| PointerListOrder.FirstInFirstOut | sensor-gateway/common/container/ConstantSizedPointerList.hpp:25-30 | Runs without such a store and without removals answer as a bounded FIFO |
| PointerListOrder.NotFirstInFirstOut | sensor-gateway/common/container/ConstantSizedPointerList.hpp:25-30 | A concrete run of stores and one consumption in which the last pointer stored is served before older ones |
| PointerArray.ContentsCount | sensor-gateway/common/container/ConstantSizedAbstractPointerArray.hpp:112-118 | In a consistent array the counter decides emptiness and fullness, and says whether a free or an occupied slot exists |
| PointerArray.CounterTellsFullness | sensor-gateway/common/container/ConstantSizedAbstractPointerArray.hpp:116-118 | The 8-bit counter tells a full array from every other one iff the size is at most 255 |
| PointerArray.IncrementCounts | sensor-gateway/common/container/ConstantSizedAbstractPointerArray.hpp:33-36 | Incrementing the 8-bit counter counts the stored pointers modulo 256 |
| PointerArray.NextIs | sensor-gateway/common/container/ConstantSizedAbstractPointerArray.hpp:49-55 | The slot a marker search stops at is the suitable one nearest in circular order |
| PointerArray.SearchStep | sensor-gateway/common/container/ConstantSizedPointerList.hpp:87-97 | Each advance of a marker search brings it one step closer to the slot it stops at |
| PointerQueueSpec.Refinement | sensor-gateway/common/container/ConstantSizedPointerQueue.hpp:43-56 | For every size the counter can count and every sequence of calls, the queue answers as a bounded FIFO sequence, refusing exactly when full or empty |
| PointerQueueSpec.RunRefines | sensor-gateway/common/container/ConstantSizedPointerQueue.hpp:43-56 | The same from any state with wrapped markers |
| PointerList.ConstantSizedPointerList.constructor | sensor-gateway/common/container/ConstantSizedAbstractPointerArray.hpp:81-88 | All slots empty, both markers on the first |
| PointerList.ConstantSizedPointerList.Store | sensor-gateway/common/container/ConstantSizedPointerList.hpp:43-48 | The object does what the specification of store says, refusals included |
| PointerList.ConstantSizedPointerList.ConsumeNext | sensor-gateway/common/container/ConstantSizedPointerList.hpp:50-56 | The object does what the specification of consumeNext says |
| PointerList.ConstantSizedPointerList.ReadNextPointerToConsume | sensor-gateway/common/container/ConstantSizedPointerList.hpp:58-64 | The object does what the specification of the peek says, and changes only its marker |
| PointerList.ConstantSizedPointerList.Contains | sensor-gateway/common/container/ConstantSizedPointerList.hpp:66-70 | Returns membership |
| PointerList.ConstantSizedPointerList.Remove | sensor-gateway/common/container/ConstantSizedPointerList.hpp:72-80 | The object does what the specification of remove says |
| PointerList.ConstantSizedPointerList.FindPositionOf | sensor-gateway/common/container/ConstantSizedPointerList.hpp:99-101 | The first slot with the pointer, or the end |
| PointerList.ConstantSizedPointerList.PlaceProducerMarkerOnNextUnoccupiedPosition | sensor-gateway/common/container/ConstantSizedPointerList.hpp:87-91 | The loop ends on the nearest free slot after at most SIZE-1 advances |
| PointerList.ConstantSizedPointerList.PlaceConsumerMarkerOnNextOccupiedPosition | sensor-gateway/common/container/ConstantSizedPointerList.hpp:93-97 | The loop ends on the nearest occupied slot after at most SIZE-1 advances |
| PointerList.ConstantSizedPointerList.IsEmpty | sensor-gateway/common/container/ConstantSizedAbstractPointerArray.hpp:112-114 | The counter test says that nothing is held |
| PointerList.ConstantSizedPointerList.IsFull | sensor-gateway/common/container/ConstantSizedAbstractPointerArray.hpp:116-118 | The counter test says that every slot is taken |
| PointerQueue.ConstantSizedPointerQueue.Store | sensor-gateway/common/container/ConstantSizedPointerQueue.hpp:43-48 | The object does what the specification of store says |
| PointerQueue.ConstantSizedPointerQueue.ConsumeNext | sensor-gateway/common/container/ConstantSizedPointerQueue.hpp:50-56 | The object does what the specification of consumeNext says |
| DataFlow.RingBufferPad.SetNext | sensor-gateway/common/data-flow/RingBufferPad.hpp:59-64 | Only the first call sets the next pad |
| DataFlow.RingBuffer.constructor | sensor-gateway/common/data-flow/RingBuffer.hpp:41-44 | All pads chained in one cycle, writer on the first, no consumer and no storage of consumers |
| DataFlow.RingBuffer.ChainPadsInBuffer | sensor-gateway/common/data-flow/RingBuffer.hpp:91-101 | The loop links every pad to the following one and the last to the first |
| DataFlow.RingBuffer.Write | sensor-gateway/common/data-flow/RingBuffer.hpp:70-74 | Stores, moves the writer, and activates exactly the linked consumers that stand elsewhere |
| DataFlow.RingBuffer.NotifyConsumersIfAnyDataIsPresent | sensor-gateway/common/data-flow/RingBuffer.hpp:115-124 | The loop over the consumers activates every lagging one and leaves the others as they are, in whatever order |
| DataFlow.RingBuffer.LinkWith | sensor-gateway/common/data-flow/RingBuffer.hpp:85-87 | An unknown consumer starts on the first pad and is registered with its storage; the consumers stay sound and apart if the new one is |
| DataFlow.RingBuffer.ConsumeNextDataFor | sensor-gateway/common/data-flow/RingBuffer.hpp:77-83 | Links if needed, reads, advances unless at the writer, deactivates when caught up; the consumers stay sound and apart |
| DataFlow.DataProcessingScheduler.LinkWith | sensor-gateway/common/data-flow/DataProcessingScheduler.hpp:63-71 | The object, its lists and the buffer do what the specifications of linking say, and the buffer has registered the scheduler iff the link was accepted; the buffer's consumers stay sound and apart |
| DataFlow.DataProcessingScheduler.ActivateFor | sensor-gateway/common/data-flow/DataProcessingScheduler.hpp:73-81 | The object does what the specification of activation says |
| DataFlow.DataProcessingScheduler.DeactivateFor | sensor-gateway/common/data-flow/DataProcessingScheduler.hpp:83-91 | The object does what the specification of deactivation says |
| DataFlow.DataProcessingScheduler.OrderTermination | sensor-gateway/common/data-flow/DataProcessingScheduler.hpp:93-96 | Sets the flag and nothing else |
| DataFlow.DataProcessingScheduler.CannotExitSafely | sensor-gateway/common/data-flow/DataProcessingScheduler.hpp:112-114 | The loop's test |
| DataFlow.DataProcessingScheduler.Turn | sensor-gateway/common/data-flow/DataProcessingScheduler.hpp:104-108 | One turn: the next ready buffer is peeked, read, advanced, deactivated if caught up, and its datum handed to the sink; no other buffer changes, no registration changes, and the buffers' consumers are sound if the other schedulers are |
| DataFlow.DataProcessingScheduler.Start | sensor-gateway/common/data-flow/DataProcessingScheduler.hpp:102-110 | After the termination order and the last write the loop terminates, and the sink has been handed, for every linked buffer, exactly the data pending on it, in order, and nothing from any other buffer; registrations and consumers as for a turn |
| DataFlow.DrainAdvances | sensor-gateway/common/data-flow/DataProcessingScheduler.hpp:102-110 | A turn takes the head of what is pending on one buffer, leaves the others, and brings the loop closer to its end |
| Delivery.WriteThenDrain | sensor-gateway/common/data-flow/DataProcessingScheduler.hpp:98-110 | A ring, a scheduler and a sink built, linked, written to, ordered to terminate and run: the sink has consumed exactly the data written, in order, for any data up to 255 |
| RecoverySpec.RecoveryIsBounded | sensor-gateway/sensor-communication/SensorCommunicator.hpp:86-102 | An open or close always returns; its calls meet the strategy's failures one by one, each failure publishes one error, and with F failures left there are at most 1 + 2F calls (exactly one more than the failures ask for) |
| RecoverySpec.PublishedTellsTheFailures | sensor-gateway/sensor-communication/SensorCommunicator.hpp:147-155 | The i-th error published is the i-th failure of the calls: the place of its own call ("open sensor connection", "close sensor connection") comes first, then " - ", then the origin it was raised with; category, severity, code and message are kept |
| RecoverySpec.OpensNeverOutnumberCloses | sensor-gateway/sensor-communication/SensorCommunicator.hpp:157-166 | In no prefix of the calls an error leads to do opens outnumber closes |
| RecoverySpec.EndsConnectedIfLastOpenWorked | sensor-gateway/sensor-communication/SensorCommunicator.hpp:157-166 | The handling of an error ends on a successful open iff the last open it made succeeded: nothing it opened is closed again |
| RecoverySpec.ReopensInTheEnd | sensor-gateway/sensor-communication/SensorCommunicator.hpp:157-166 | If every failed open asks for another open, an error of that class is handled until the connection is open |
| RecoverySpec.HandleOpensByChain | sensor-gateway/sensor-communication/SensorCommunicator.hpp:157-166 | With no assumption on the failures: the handling of an error calls open iff the error asks for an open, or its close fails in a chain of errors that ask for a close up to one that asks for an open |
| RecoverySpec.HandleEndsOpenByChain | sensor-gateway/sensor-communication/SensorCommunicator.hpp:157-166 | If failed opens ask again, the handling of an error ends on a successful open iff the error or such a chain asks for it |
| RecoverySpec.CloseEndsOpenByChain | sensor-gateway/sensor-communication/SensorCommunicator.hpp:95-102 | If failed opens ask again, closeConnection ends on a successful open iff its calls fail in such a chain |
| RecoverySpec.CloseMayOpen | sensor-gateway/sensor-communication/SensorCommunicator.hpp:95-102 | A concrete run of closeConnection that leaves the connection open: its close fails once with an error that asks for an open |
| RecoverySpec.FatalErrorMayOpen | sensor-gateway/sensor-communication/SensorCommunicator.hpp:157-166 | A concrete run in which an error fatal for the sensor access, which asks for no open, leads to one |
| RecoverySpec.OpensAnOpenConnection | sensor-gateway/sensor-communication/SensorCommunicator.hpp:157-166 | If failed opens ask again, handling an error that asks for an open opens a connection just opened iff one of its closes failed with an error that asks for an open |
| RecoverySpec.MayOpenTwice | sensor-gateway/sensor-communication/SensorCommunicator.hpp:157-166 | A concrete run that opens twice in a row: close, close, open, open |
| RecoverySpec.AttemptFollows | sensor-gateway/sensor-communication/SensorCommunicator.hpp:86-102 | The calls of a recovery fail exactly as the strategy's script says, in order |
| RecoverySpec.AttemptCount | sensor-gateway/sensor-communication/SensorCommunicator.hpp:157-166 | The number of calls is one more than all their failures ask for |
| Errors.OpeningMeansClosingAndSurviving | sensor-gateway/common/error/SensorAccessLinkError.cpp:102-135 | An error asks for a new connection iff it asks for closing the old one and is not fatal for the sensor access; gateway-fatal implies access-fatal; the reported origin does not matter |
| Errors.PublishedErrorsTellApart | sensor-gateway/sensor-communication/SensorCommunicator.hpp:147-155 | A published error tells its place, one of four, and the error raised there: no other pair is published the same way |
| Errors.OnlyTheseAreFatalOrKeepTheConnection | sensor-gateway/common/error/SensorAccessLinkError.cpp:102-135 | The classification by enumeration: the severities that are not fatal, the categories that call for a close, and when an open is called for |
| SensorCommunicator.ThreadAccounts | sensor-gateway/sensor-communication/SensorCommunicator.hpp:104-145 | Over any number of rounds, whatever fails: exactly the non-default data of the rounds' fetches are produced, in order; opens never outnumber closes; the errors published are exactly what went wrong, in order, each failed fetch and each failed connection call with its own place in front ("handle incoming message", "handle incoming rawdata" and the two of the connection) |
| SensorCommunicator.RoundsProduceWhatWasFetched | sensor-gateway/sensor-communication/SensorCommunicator.hpp:113-145 | What the rounds produce is what the working fetches returned, in order, without the defaults |
| SensorCommunicator.TerminationEndsOpen | sensor-gateway/sensor-communication/SensorCommunicator.hpp:70-76 | Whatever the script of failures and the rounds the thread still runs after the closing, failed opens being tried again: the connection is left open iff the last error of those rounds that asked for a close led to an open or, if there was none, the closing failed in a chain that asks for an open |
| SensorCommunicator.LateFetchReopens | sensor-gateway/sensor-communication/SensorCommunicator.hpp:70-76 | A concrete termination without any failing connection call that leaves the connection open: a fetch fails in the round still under way |
| SensorCommunicator.Communicator.OpenConnection | sensor-gateway/sensor-communication/SensorCommunicator.hpp:86-93 | Makes exactly the calls of the specification and publishes their failures in order, which tell the place that caught them as RecoverySpec.PublishedTellsTheFailures states |
| SensorCommunicator.Communicator.CloseConnection | sensor-gateway/sensor-communication/SensorCommunicator.hpp:95-102 | The same for closing |
| SensorCommunicator.Communicator.AddOriginAndHandleError | sensor-gateway/sensor-communication/SensorCommunicator.hpp:147-155 | Publishes first the error with the given place, " - " and its old origin as its origin and everything else kept, then recovers |
| SensorCommunicator.Communicator.HandleCaughtError | sensor-gateway/sensor-communication/SensorCommunicator.hpp:157-166 | Publishes, then closes if asked, then opens if asked |
| SensorCommunicator.Communicator.HandleIncomingMessages | sensor-gateway/sensor-communication/SensorCommunicator.hpp:113-128 | Produces the non-default messages of the fetch in order; a failed fetch produces none and is recovered from |
| SensorCommunicator.Communicator.HandleIncomingRawData | sensor-gateway/sensor-communication/SensorCommunicator.hpp:130-145 | The same for raw data |
| SensorCommunicator.Communicator.RunFor | sensor-gateway/sensor-communication/SensorCommunicator.hpp:104-111 | The loop reaches the state that its number of rounds specifies |
| SensorCommunicator.Communicator.Start | sensor-gateway/sensor-communication/SensorCommunicator.hpp:64-68 | Opens the connection, with recovery |
| SensorCommunicator.Communicator.TerminateAndJoin | sensor-gateway/sensor-communication/SensorCommunicator.hpp:70-76 | Closes with recovery, sets the flag and waits for the thread's remaining rounds: the state is that of the rounds after the closing, and the connection is left open exactly as stated above |
| FrameAssembly.FrameIsAssembled | sensor-gateway/data-translation/GuardianTranslationStrategy.cpp:62-107 | For a well-formed stream: pixel p holds in its first slots the tracks reported for p in arrival order (at most 16), each with the id, confidence and intensity of its report (the AWL's as intensity/2048 - 21) and the distance, speed and acceleration of the last velocity reported for it or zeros (the AWL's divided by 100); slots beyond hold a track without id and values, and the pixel's id and count follow |
| FrameAssembly.StreamIsAssembled | sensor-gateway/data-translation/AWLTranslationStrategy.cpp:36-103 | Over whole streams of either family: one frame per end of frame, made of its own messages only and bearing the message id and sensor id reported with it; and the codes of the refused messages, in order: 10110 for a track beyond the 16th of its pixel, 10200 or 10300 for an unknown id |
| FrameAssembly.UnfinishedStream | sensor-gateway/data-translation/GuardianTranslationStrategy.cpp:62-69 | Messages after the last end of frame send nothing on |
| Reports.ReportsArrive | sensor-gateway/data-translation/GuardianTranslationStrategy.cpp:62-96 | Round trip through the bytes: every report that fits (end of frame, track, velocity with signed speed and acceleration) is decoded from its message as it was encoded, ids 9, 10 and 11, low byte first |
| Reports.MessagesCarryReports | sensor-gateway/common/ConstantFunctionsDefinition.h:20-34 | The other way round: every message is the encoding of what is decoded from it |
| Reports.TranslatesAsReported | sensor-gateway/data-translation/GuardianTranslationStrategy.cpp:62-107 | The translation of one message does what its report says: an end of frame sends the frame on under the reported ids and starts over, a track is added to the reported pixel with its reported values, a velocity moves the first slot with its id, anything else is refused with 10200 (AWL) or 10300 (Guardian) |
| FrameAssembly.VelocityGoesTo | sensor-gateway/data-translation/GuardianTranslationStrategy.cpp:87-107 | In any reachable frame a velocity reaches a given track iff no earlier track has its id and, for the id of empty slots, every earlier pixel is full |
| FrameAssembly.UndefinedIdGoesAstray | sensor-gateway/common/data-structure/spirit/Pixel.cpp:83-100 | With track id 65535 the velocity misses the track and changes an empty slot: a concrete run |
| FrameAssembly.FoundWhereReported | sensor-gateway/data-translation/GuardianTranslationStrategy.cpp:98-107 | The pixel-by-pixel search finds the slot the track was reported in |
| FrameSpec.Compositional | sensor-gateway/data-translation/GuardianTranslationStrategy.cpp:62-69 | Translating s, an end of frame and t yields the frames of s, the frame ended, and the frames of t translated on their own |
| FrameSpec.OneFramePerEnd | sensor-gateway/data-translation/AWLTranslationStrategy.cpp:57-64 | As many frames are produced as there are end-of-frame messages |
| FrameSpec.RefusalsLeaveNoTrace | sensor-gateway/common/data-structure/spirit/SensorMessage.hpp:74-77 | A message is refused iff its id is unknown or its track is for a full pixel, and then a reachable frame is unchanged although the pixel was renamed first |
| FrameSpec.RunKeepsPlaces | sensor-gateway/common/data-structure/spirit/Pixel.cpp:77-81 | In every reachable frame a pixel with tracks has its place as id, at most 16 tracks, and the undefined id in its empty slots |
| FrameSpec.Signed | sensor-gateway/common/ConstantFunctionsDefinition.h:30-34 | Two bytes, low first, as a signed 16-bit value congruent to the unsigned one |
| FrameSpec.Unsigned | sensor-gateway/common/ConstantFunctionsDefinition.h:20-24 | A 16-bit value whose low byte is the first one and whose high byte is the second |
| Translation.Pixel.AddTrack | sensor-gateway/common/data-structure/spirit/Pixel.cpp:77-81 | Writes the track in the first empty slot and counts it, or refuses a full pixel unchanged |
| Translation.Pixel.DoesTrackExist | sensor-gateway/common/data-structure/spirit/Pixel.cpp:83-91 | The loop tells whether any slot, empty ones included, has the id |
| Translation.Pixel.FetchTrackById | sensor-gateway/common/data-structure/spirit/Pixel.cpp:93-100 | The first slot with the id, if any |
| Translation.SensorMessage.constructor | sensor-gateway/common/data-structure/spirit/SensorMessage.hpp:118-126 | The default frame |
| Translation.SensorMessage.UpdatePixelId | sensor-gateway/common/data-structure/spirit/SensorMessage.hpp:102-104 | Renames one pixel and nothing else |
| Translation.SensorMessage.AddTrackToPixelWithId | sensor-gateway/common/data-structure/spirit/SensorMessage.hpp:74-77 | Does to the frame what the specification says, refusal included, touching one pixel |
| Translation.TranslationStrategy.FetchTrack | sensor-gateway/data-translation/GuardianTranslationStrategy.cpp:98-107 | The loop finds the first slot of the id over all pixels, if any |
| Translation.TranslationStrategy.TranslateMessage | sensor-gateway/data-translation/GuardianTranslationStrategy.cpp:35-50 | Changes the frame, produces and refuses as the specification of one message says, and as the report in the message asks |
| Translation.TranslationStrategy.TranslateEndOfFrameMessage | sensor-gateway/data-translation/GuardianTranslationStrategy.cpp:62-69 | Hands over a copy of the frame with bytes 0 and 1 as message id and 2 and 3 as sensor id, and starts over with the default one |
| Translation.TranslationStrategy.TranslateDetectionVelocityMessage | sensor-gateway/data-translation/GuardianTranslationStrategy.cpp:87-96 | Gives the first track of the reported id the reported distance, speed and acceleration and changes nothing else |
| RawData.SwapsUnlessNegative | sensor-gateway/common/ConstantFunctionsDefinition.h:36-40 | The function swaps the bytes iff the sample is not negative or its low byte is 0xFF; a negative sample becomes its high byte, sign-extended |
| RawData.SelfInverse | sensor-gateway/common/ConstantFunctionsDefinition.h:36-40 | Applied twice it is the identity iff both bytes are below 0x80 or the sample is -1 |
| RawData.Layout | sensor-gateway/data-translation/GuardianTranslationStrategy.cpp:52-60 | For any number of samples S per channel and any positions: the content at i*S+k is the reversal of the original at pos(i)*S+k |
| RawData.OrderingCommutes | sensor-gateway/data-translation/GuardianTranslationStrategy.cpp:52-60 | Ordering the channels commutes with reversing the samples |
| RawData.OrderingKeepsTheBlocks | sensor-gateway/data-translation/GuardianTranslationStrategy.cpp:117-128 | Ordering by a permutation keeps the multiset of channel blocks |
| RawData.InverseUndoes | sensor-gateway/data-translation/GuardianTranslationStrategy.cpp:117-128 | Ordering by the inverse permutation restores the content |
| RawData.RoundTrip | sensor-gateway/data-translation/GuardianTranslationStrategy.cpp:52-60 | Translating again with the inverse permutation restores a content iff every sample has both bytes below 0x80 or is -1 |
| RawData.GuardianPositionsArePermutation | sensor-gateway/common/data-structure/sensor/GuardianStructures.h:62-65 | The Guardian's positions interleave its two halves and name every channel once |
| RawData.OrderRawData | sensor-gateway/data-translation/GuardianTranslationStrategy.cpp:117-128 | The in-place loop of block copies yields the ordered content |
| RawData.ReverseRawDataDefinitionEndianness | sensor-gateway/data-translation/GuardianTranslationStrategy.cpp:109-115 | The in-place loop reverses every sample |
| RawData.TranslateRawData | sensor-gateway/data-translation/GuardianTranslationStrategy.cpp:52-60 | Orders, then reverses |

## Left out

- Kvaser and LibUSB strategies and their error tables: foreign calls; the sensor is a script of batches and errors.
- ServerCommunicator beyond consuming one datum and raising errors: its handler does not recurse. An exception
  thrown by the close or open of that handler ends the process and is not modelled.
- DataTranslator's rewriting of an error's category and severity: the pipeline passes error values on unread.
- The detached termination started by a fatal error: shutdown is a single terminateAndJoin.
- SensorAccessLink as an object: its threads interleave, so its ordered calls are the orders of a state machine.
- Memory ordering, mutexes and thread objects: steps act on sequentially consistent state.
- Buffer behaviour with a reader lapped, in the pipeline: the source's write never waits, the model leaves out the
  runs with such a write by letting it wait. `RingSpec` says what a lapped reader of one ring is left with.
- PipelineTermination.NeverStuck: holds of runs in which no write laps a reader, as all theorems on the pipeline.
- PipelineTermination.EveryStepWindsDown: the same.
- PipelineTermination.ShutdownFinishes: the same.
- PipelineRuns.TerminationDrains: its clause on errors takes writes as atomic. Each error buffer has two or three
  writing threads and `RingBuffer::write` takes no lock; `FineGrained` has one writer, so the race of two writers
  on one buffer is not part of this model.
- ThreadSafeRingBuffer, which nothing instantiates, and move, copy, swap and equality boilerplate.
- Timestamps, time points, lengths, message formatting and console output.
- AWL translateRawData, which is a stub; the pipeline's AWL raw data produce nothing.
- Floating-point rounding: intensities, distances, speeds and accelerations are reals.
- convertFourBytesToUnsignedBigEndian and the unused constants and commands.
- Translation.TranslationStrategy.TranslateMessage: says nothing of a velocity for an unknown track or of a pixel
  beyond 15, where the source dereferences a null pointer or indexes out of bounds.
- SensorCommunicator.Communicator.RunFor: the moment at which the flag is seen is a parameter, the number of rounds.
- SensorCommunicator.Communicator.TerminateAndJoin: the calls of the closing come before those of the rounds that
  end after it; a recovery of the thread that interleaves with the closing call by call is not modelled.
- DataFlow.DataProcessingScheduler.Start: describes the loop after the last write; the loop among other threads is in
  `Engine` and `Pipeline`.
