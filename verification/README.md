# Verification of the streaming detection pipeline

This project models how the guardrails orchestrator detects on text while it is generated, and proves what the
pipeline keeps and promises. A model's token stream is recorded per choice and fed to a chunker; n detectors report
on every chunk on independent streams; a batcher puts the reports together again, so that each chunk is released
once, in order, with all findings; a handler turns batches into responses and ends the response stream. The unary
path (masks, chunks, detections, threshold, sort), the client's event streams and its retry loop are covered as well.

`dafny verify dfyconfig.toml` checks everything with Dafny 4.11.

| files | what they hold |
|---|---|
| `Types.dfy` | options, results, chunks and their order, detections |
| `Batching.dfy`, `InOrderRelease.dfy` | the two batchers as classes; conservation, simulation, in-order release |
| `BatchStream.dfy`, `BatchStreamSafety.dfy`, `BatchStreamSchedule.dfy`, `BatchStreamDrain.dfy`, `SingleStream.dfy` | select loop, mailbox and actor as a state machine; its invariant, conservation, order, errors, draining, the single-stream shortcut |
| `CompletionState.dfy`, `Producer.dfy`, `ProducerProperties.dfy`, `ProducerOutcome.dfy`, `StreamedMessages.dfy` | the shared state and the producer that fills it, for both endpoints; its outcome read off the stream |
| `Merging.dfy`, `Completions.dfy`, `CompletionsHandler.dfy` | completions: logprobs, responses to batches, flush |
| `CompletionsRequest.dfy`, `FinalMessage.dfy` | the completions handler from the checks of a request to the terminator |
| `EndToEnd.dfy`, `EndToEndRequest.dfy` | batch stream, producer and handler together: what the client gets for a choice |
| `Chat.dfy`, `ToolCalls.dfy` | chat completions: content, logprobs, responses, tool calls |
| `Unary.dfy`, `UnarySort.dfy`, `UnaryOrder.dfy`, `UnaryFindings.dfy`, `UnaryCoordinates.dfy` | the unary detection path |
| `EventStream.dfy`, `EventStreamProperties.dfy`, `EventStreamDeliveries.dfy` | the direct and the router event stream |
| `Retry.dfy` | the retry loop |

## How it is modelled

* **Batchers** are classes with a `map` field that `Push` and `PopBatch` reassign. Map keys are the four chunk
  indices and the choice; the chunk as first pushed, text included, is kept in the entry, because chunk equality and
  order ignore the text (src/orchestrator/types/chunk.rs:39-80).
* **The batch stream** is a state machine. A step is one arm of the select loop taking effect, one poll that posts a
  request, or one message handled by the actor; any order of enabled steps is a run. Requests and replies are
  explicit: when another arm wins, the reply channel is dropped and the actor's answer goes nowhere.
* **The producer** performs a list of visible actions (store, send, flag, forward). The methods are proved to
  have the effect of the whole list; a theorem about every prefix of the list is a theorem about every interleaving
  with consumers. A client that disconnects is one that takes only so many messages (`patience`).
* **The handler** sends on one response channel, which its parts extend in turn; each early return has its own
  terminator, as in the source. On the chunk path the producer runs beside it: a run says how far the producer was when
  each batch was handled, at the flush and at the end, for any such moments in order.
* **Services** (chunkers, detectors, the language model, JSON parsers) are arbitrary functions or arbitrary streams
  of items, errors included. Tokio channels are FIFO queues.
* **Concurrent unary requests** are given in the order in which they complete, which is any order.

## What the proofs found

* A batch can be lost. If the streams end, or another report arrives, after the batcher answered a pop and before
  the loop reads the answer, the select drops the answer (`DroppedReplyLosesABatch`). ADR 002 asks for frames to come
  in order so that a user knows how much was processed, and ADR 010 for a stream of batches; the code keeps the
  order but delivers everything exactly if no step of the schedule loses a batch in this way
  (`FinishedRunsDeliverEverythingIffNoStepLosesABatch`).
* If some chunk is missing a detector's report when the streams end, or has one too many, the loop sends what
  precedes it and then spins without ending (`IncompleteEntryBlocksForever`).
* The final message unwraps metadata that only a first item of the right kind stores. A stream that opens with an error
  or with usage only makes the handler panic when a final message is due, and then no terminator is sent
  (`HandleStreaming`, `BackedRequestsPanicIffMetadataIsMissing`, `MissingMetadataPanics`). So does a pipeline that fails or ends before the first
  message was handled, if there are whole-document detectors: the comment at
  src/orchestrator/handlers/completions_detection/streaming.rs:311 takes the state to be final there, which after a
  failure it need not be (`FinalPartPanics`).
* The empty text sent for a silent choice has no record behind it. A batch made from it panics if the choice was never
  mentioned (`SilentChoiceMakesTheResponsePanic`), and has a response only if the choice's message 0 is stored.
  An inverted chunk range panics too (`BatchPanicsIff`).
* The flush sends the last stored completion as it is. If its text is not empty, which takes a last chunk that does not end
  with the last text, the client gets that text a second time and without detections (`ClientGetsTheWholeText`).
* The warning about empty output is overwritten by the warnings of whole-document detection (`SendFinalPart`).
* Mask validation counts bytes and slicing counts characters, so for any text that is not ASCII a mask is accepted
  that reaches past its end; it is shortened (`AcceptedMasksFitIffAscii`), and coordinates still compose.
* The order of detections with equal starts depends on which detector answers first (`OrdersAgreeIffTiesDo`).
  ADR 005 puts detections without a span last; the sort would put them first, though this path creates none.

## Model

| member | source | states |
|---|---|---|
| `CompletionBatching.CompletionBatcher.constructor` | src/orchestrator/types/detection_batcher/completion.rs:47-52 | a new batcher holds nothing |
| `CompletionBatching.CompletionBatcher.Push` | src/orchestrator/types/detection_batcher/completion.rs:56-67 | the list goes to the end of the entry of its chunk indices and choice; a new entry keeps the chunk as first pushed, text included, and an old one keeps its own; no other entry changes |
| `CompletionBatching.CompletionBatcher.PopBatch` | src/orchestrator/types/detection_batcher/completion.rs:69-87 | the new state and the answer; with the five numbers compared one by one, the batch is the earliest entry of all choices, it leaves alone and holds n lists, and without an answer the earliest entry does not hold n lists |
| `CompletionBatching.CompletionBatcher.IsEmpty` | src/orchestrator/types/detection_batcher/completion.rs:89-91 | true exactly if nothing is held |
| `CompletionBatching.PopReleasesExactlyTheLeastCompleteEntry` | src/orchestrator/types/detection_batcher/completion.rs:74-86 | a pop answers exactly if the earliest entry, in inputStart, then inputEnd, start, end and choice, holds exactly n lists; it then takes that entry, whole and alone |
| `CompletionBatching.PopNeverOvertakes` | src/orchestrator/types/detection_batcher/completion.rs:69-87 | no entry that stays, of any choice, precedes the released one: the five numbers are compared one by one |
| `CompletionBatching.BatcherConservesLists` | src/orchestrator/types/detection_batcher/completion.rs:56-87 | on every trace and for every key: lists pushed = lists released, then lists held, in order |
| `CompletionBatching.ReleasesAreComplete` | src/orchestrator/types/detection_batcher/completion.rs:75-83 | every release carries exactly n lists |
| `MaxProcessedIndexBatching.MaxProcessedIndexBatcher.Push` | src/orchestrator/types/detection_batcher/max_processed_index.rs:52-63 | the list goes to the end of the entry of its chunk; the input id is ignored |
| `MaxProcessedIndexBatching.MaxProcessedIndexBatcher.PopBatch` | src/orchestrator/types/detection_batcher/max_processed_index.rs:65-79 | the new state and the answer; the batch is the earliest chunk in its four numbers, and the answer always names input 0 |
| `MaxProcessedIndexBatching.MaxProcessedIndexBatcher.IsEmpty` | src/orchestrator/types/detection_batcher/max_processed_index.rs:81-83 | true exactly if nothing is held |
| `MaxProcessedIndexBatching.BatchersAgreeOnZeroIds` | src/orchestrator/types/detection_batcher/max_processed_index.rs:51-84 | simulation: on every trace with input ids 0 both batchers answer every pop and every emptiness check alike, chunk text included |
| `MaxProcessedIndexBatching.BatchersDifferOnOtherIds` | src/orchestrator/types/detection_batcher/max_processed_index.rs:52-76 | for other ids they are told apart by one push and one pop, exactly if the id is not 0 |
| `InOrderRelease.ReleaseIsNextOfItsChoice` | src/orchestrator/types/detection_batcher/completion.rs:69-87 | with ascending chunks per choice, the entry a pop takes is the next chunk of its choice and all n lists pushed for it |
| `InOrderRelease.ReleasesFollowThePlan` | src/orchestrator/types/detection_batcher/completion.rs:55-92 | on every trace whose pushes follow an ascending plan, the releases of each choice are a prefix of its chunks, each with the n lists pushed for it |
| `InOrderRelease.DrainedMeansComplete` | src/orchestrator/types/detection_batcher/completion.rs:69-91 | after n reports for every chunk, a batcher that answers no pop is empty and has released every chunk |
| `InOrderRelease.InterleavingsFollowThePlan` | src/orchestrator/types/detection_batcher/completion.rs:55-87 | every interleaving of n in-order detector streams and of pops is such a trace |
| `InOrderRelease.InOrderReleaseForEveryInterleaving` | src/orchestrator/types/detection_batcher/completion.rs:55-92 | in-order release: for every interleaving and every pop schedule, the batches of a choice are a prefix of its chunks without skip, repeat or reordering, batch i carries as a multiset the detections of all n detectors for chunk i, and when every stream has ended and a pop finds nothing ready everything was released |
| `BatchStream.DetectionBatcherManager.constructor` | src/orchestrator/types/detection_batch_stream.rs:142-144 | the actor owns the batcher it is given |
| `BatchStream.DetectionBatcherManager.Handle` | src/orchestrator/types/detection_batch_stream.rs:148-169 | one message: new batcher state and reply |
| `BatchStream.DetectionBatcherManager.Run` | src/orchestrator/types/detection_batch_stream.rs:146-171 | all messages in order: the k-th reply is the one due in the state that the first k messages leave, and so is the final state |
| `BatchStreamDrain.ActsAreTheManager` | src/orchestrator/types/detection_batch_stream.rs:148-169 | the actor steps of the state machine are the manager: after k of them the batcher is as k messages leave it, and each live request gets the reply the manager gives |
| `BatchStream.InvariantHoldsOnEveryRun` | src/orchestrator/types/detection_batch_stream.rs:56-98 | the invariant of select loop, mailbox, actor and reply channel holds in every reachable state, futures dropped or not |
| `BatchStreamSchedule.FirstErrorIsSentLast` | src/orchestrator/types/detection_batch_stream.rs:66-84 | for every schedule: the loop takes exactly the reports before the streams end or fail; the batch channel holds an error exactly if one comes before the end, it is the first one, and it is last after the batches sent; such a run never finishes |
| `BatchStreamSchedule.NothingAfterTheLoopStops` | src/orchestrator/types/detection_batch_stream.rs:75-97 | after an error or a regular end nothing is received or sent any more |
| `BatchStreamSafety.EveryListIsInExactlyOnePlace` | src/orchestrator/types/detection_batch_stream.rs:56-98 | conservation: in every reachable state each list received is in exactly one of a batch sent, a discarded reply, an unread reply, the batcher, or an unhandled push, in order; the batch channel got exactly the batches not discarded or unread |
| `BatchStreamSafety.DiscardedIffAStepLosesABatch` | src/orchestrator/types/detection_batch_stream.rs:61-97 | a batch is discarded exactly if some step of the schedule loses one: another branch wins while the answered pop holds a batch, or the actor answers a pop of an earlier round while a batch is ready |
| `BatchStreamSafety.DropFreeRunsLoseNothing` | src/orchestrator/types/detection_batch_stream.rs:61-98 | no step loses a batch on a run that drops no pop future between its request and its batch |
| `BatchStreamSafety.FinishedRunsDeliverEverythingIffNoStepLosesABatch` | src/orchestrator/types/detection_batch_stream.rs:61-97 | a run that ends regularly delivered every list received exactly if no step of the schedule lost a batch |
| `BatchStreamSafety.DroppedReplyLosesABatch` | src/orchestrator/types/detection_batch_stream.rs:80-90 | a concrete run that ends without error and never sends the one batch, because the end of the streams wins the select over the answered pop |
| `BatchStreamSafety.SentBatchesStayInOrder` | src/orchestrator/types/detection_batch_stream.rs:66-90 | on every run, the batches sent for a choice are in chunk order without repeats and complete, even if some were lost; if no step loses one, they are a prefix of the chunks |
| `BatchStreamSafety.SentBatchesAreWholeChunks` | src/orchestrator/types/detection_batch_stream.rs:56-90 | for every interleaving of n detector streams and every schedule, each batch sent for a choice holds, as a multiset, the detections of all n detectors for one chunk of its plan, and the chunks ascend; if no step loses a batch the i-th batch is the i-th chunk |
| `BatchStreamSafety.InterleavedStreamsFollowThePlan` | src/orchestrator/types/detection_batch_stream.rs:57 | the hypothesis of the order theorem holds for every interleaving of the detectors' streams |
| `BatchStreamDrain.DrainEmptiesIffAllReady` | src/orchestrator/types/detection_batcher/completion.rs:69-91 | popping until nothing is ready empties the batcher exactly if every entry holds n lists |
| `BatchStreamDrain.DrainIsAscendingAndExact` | src/orchestrator/types/detection_batcher/completion.rs:69-87 | the drained batches come in strictly ascending order of chunk and choice and are, with the rest, exactly the entries there were |
| `BatchStreamDrain.StreamsEndStartsDraining` | src/orchestrator/types/detection_batch_stream.rs:80-83 | the end of the streams starts the drain exactly if no pop request is in the mailbox, as on every drop-free run |
| `BatchStreamDrain.DrainIsOnIffNoPopIsStale` | src/orchestrator/types/detection_batch_stream.rs:80-97 | on every run, once the streams ended without error, the drain theorems apply exactly if no pop request of an earlier round is left |
| `BatchStreamDrain.RunDrains` | src/orchestrator/types/detection_batch_stream.rs:86-96 | no drop-free step of the drain changes what will have been sent in the end |
| `BatchStreamDrain.StepDecreasesMeasure` | src/orchestrator/types/detection_batch_stream.rs:61-97 | every effective step of a progressing drain decreases a measure built from the number of keys |
| `BatchStreamDrain.SomeStepIsPossible` | src/orchestrator/types/detection_batch_stream.rs:61-97 | the drain never gets stuck: until it is finished some drop-free step is possible |
| `BatchStreamDrain.CompleteDrainsAreBounded` | src/orchestrator/types/detection_batch_stream.rs:87-96 | if every entry is complete, every schedule finishes within the measure |
| `BatchStreamDrain.CompleteDrainsFinish` | src/orchestrator/types/detection_batch_stream.rs:87-96 | and a drop-free schedule to the end exists |
| `BatchStreamDrain.LongRunsSendWhatTheyCan` | src/orchestrator/types/detection_batch_stream.rs:87-96 | if some entry is incomplete, every long enough run has sent all entries before it |
| `BatchStreamDrain.LoopStopsIffEveryEntryIsComplete` | src/orchestrator/types/detection_batch_stream.rs:91-96 | once the streams ended, the loop can stop exactly if every remaining key holds n lists, and when it stops it has sent exactly the remaining entries in ascending order |
| `BatchStreamDrain.SomeScheduleFinishesIffEveryEntryIsComplete` | src/orchestrator/types/detection_batch_stream.rs:61-97 | over all schedules, dropped futures and stale requests included: once the streams ended without error, some way to go on finishes exactly if every entry the batcher will hold has n lists |
| `BatchStreamDrain.EveryScheduleReleasesInOrder` | src/orchestrator/types/detection_batch_stream.rs:61-97 | whatever is dropped, once no push is left to handle, the releases still to come are those of the drain, in ascending order |
| `BatchStreamDrain.EveryScheduleSendsInOrder` | src/orchestrator/types/detection_batch_stream.rs:80-96 | and what is sent is a part of them, in strictly ascending order of chunk and choice |
| `BatchStreamDrain.IncompleteEntryBlocksForever` | src/orchestrator/types/detection_batch_stream.rs:91-96 | otherwise it reaches a state no later step changes, never stops, and always has a step to take: it spins |
| `SingleStream.ForwardSingleStream` | src/orchestrator/types/detection_batch_stream.rs:38-53 | every item as it came, up to and including the first error and no further |
| `SingleStream.ForwardsExactly` | src/orchestrator/types/detection_batch_stream.rs:38-53 | that determines the output: the reports before the first error as batches, then the error |
| `SingleStream.ShortcutEqualsBatcher` | src/orchestrator/types/detection_batch_stream.rs:38-54 | for one choice with strictly ascending chunks, what the shortcut sends is what a batcher for one detector emits under every schedule that ends drained, then the error, if any |
| `SingleStream.ShortcutEqualsBatcherIffAscending` | src/orchestrator/types/detection_batch_stream.rs:38-54 | against a batcher popped after all pushes, they agree exactly if the chunks before the first error ascend strictly |
| `CompletionStates.CompletionState.SetMetadata` | src/orchestrator/types/completion_state.rs:28-30 | the first call stores, later calls do nothing |
| `CompletionStates.CompletionState.SetUsage` | src/orchestrator/types/completion_state.rs:33-35 | the first call stores, later calls do nothing |
| `CompletionStates.CompletionState.InsertCompletion` | src/orchestrator/types/completion_state.rs:38-52 | stores under choice and message index; every other entry stays |
| `CompletionStates.LastIndex` | src/orchestrator/handlers/completions_detection/streaming.rs:698-701 | the last key is a key and no key is greater |
| `CompletionStates.RangeEndsAtItsLastKey` | src/orchestrator/handlers/completions_detection/streaming.rs:583-589 | a range lookup ends with the completion at its largest key |
| `CompletionStates.ValuesAreAnyLongEnoughRange` | src/orchestrator/handlers/completions_detection/streaming.rs:490-499 | all values in index order are the range up to any bound above the keys |
| `Producers.ProcessStream` | src/orchestrator/handlers/completions_detection/streaming.rs:363-468 | state, input channels, responses and flag after the stream are those of performing the list of actions in order |
| `Producers.ProcessItem` | src/orchestrator/handlers/completions_detection/streaming.rs:375-455 | the same for one item, whichever kind it is |
| `Producers.ProcessChoice` | src/orchestrator/handlers/completions_detection/streaming.rs:410-434 | the same for one choice: record first, then send |
| `ProducerOutcome.StreamDeterminesTheOutcome` | src/orchestrator/handlers/completions_detection/streaming.rs:363-468 | for every stream and client: each input channel holds exactly the errors of the stream and the texts of its choice, in the order of the items, and last the empty text of a choice that sent none; the state holds exactly the messages under choice and index, the metadata of the first item and the first usage; the flag is up exactly if a message finished a fed choice without text |
| `StreamedMessages.CompletionsPipelineOutcome` | src/orchestrator/handlers/completions_detection/streaming.rs:363-468 | the same for completions, in the fields of the messages: id, created, model, usage, and text, index and finish reason of the first choice |
| `StreamedMessages.ChatPipelineOutcome` | src/orchestrator/handlers/chat_completions_detection/streaming.rs:379-447 | the same for chat, in the fields of the chunks |
| `ProducerProperties.RecordBeforeSend` | src/orchestrator/handlers/completions_detection/streaming.rs:413-427 | after every prefix of the actions, hence for every consumer interleaved with the producer, each text sent is stored under its choice and index |
| `ProducerProperties.EntriesUpToSentTextAreFinal` | src/orchestrator/handlers/completions_detection/streaming.rs:413-427 | once the text of message j was sent, nothing stored up to j ever changes |
| `ProducerProperties.EmptyTextComesLast` | src/orchestrator/handlers/completions_detection/streaming.rs:458-467 | a choice has been sent the trailing empty text only once the producer is done |
| `ProducerProperties.BothPathsSeeTheSameText` | src/orchestrator/handlers/completions_detection/streaming.rs:374-502 | for every stream and choice with an input channel, the concatenated texts sent equal the concatenated stored texts; sent indices increase strictly, except for the one trailing empty text of a choice that sent none |
| `ProducerProperties.MetadataKnownIffFirstMessageStoresIt` | src/orchestrator/handlers/completions_detection/streaming.rs:398-408 | metadata is known exactly if the first item is a message on the non-usage branch, and the client took it where messages are forwarded |
| `ProducerProperties.MetadataAtMoment` | src/orchestrator/handlers/completions_detection/streaming.rs:398-408 | without forwarding, at every moment the metadata are known exactly if the first item stores them and the producer has begun |
| `ProducerProperties.EntriesStay` | src/orchestrator/handlers/completions_detection/streaming.rs:413-420 | what is stored at some moment is stored at every later one |
| `ProducerProperties.ForwardingPassesTheStreamOn` | src/orchestrator/handlers/completions_detection/streaming.rs:377-388 | forwarding passes on every message and error in order, until a message finds the client gone |
| `ProducerProperties.ClientsGetTheStreamUntilTheyLeave` | src/orchestrator/handlers/completions_detection/streaming.rs:377-388 | a client that stays gets the stream item by item; one that leaves gets its beginning, with as many messages as it took |
| `ProducerProperties.ProducerNeverSendsTheEndMarker` | src/orchestrator/handlers/completions_detection/streaming.rs:441 | the upstream end marker is not forwarded, so the producer never ends the response stream |
| `Completions.MergeLogprobs` | src/orchestrator/handlers/completions_detection/streaming.rs:623-646 | all four columns concatenated in order; None exactly if every component is empty |
| `Completions.MergedColumns` | src/orchestrator/handlers/completions_detection/streaming.rs:623-646 | each merged column is the concatenation of the same column of the first choices of the messages, one by one |
| `Completions.BatchLogprobsAddUp` | src/orchestrator/handlers/completions_detection/streaming.rs:583-594 | batches with consecutive ranges that cover the stored keys have logprobs that concatenate to those of the whole choice |
| `Completions.ResponseOutcome` | src/orchestrator/handlers/completions_detection/streaming.rs:574-620 | panic exactly without an entry or with an inverted range, error exactly if no key is in range, otherwise built from the completion at the last key in range |
| `Completions.ResponseForSentTextIsDefinite` | src/orchestrator/handlers/completions_detection/streaming.rs:574-620 | for a chunk ending with a sent text, a response is built, from exactly that message, and is the same at every later moment |
| `Completions.SilentChoiceMakesTheResponsePanic` | src/orchestrator/handlers/completions_detection/streaming.rs:458-467 | a choice the stream never mentions gets the empty text and no entry, so a chunk made from it makes the response builder panic |
| `Merging.TilesCollectEverything` | src/orchestrator/handlers/completions_detection/streaming.rs:583-587 | collecting over consecutive covering ranges is collecting over all stored values |
| `CompletionsHandler.LoopEndsAtTheFirstFailure` | src/orchestrator/handlers/completions_detection/streaming.rs:656-689 | the batch loop sends the responses up to the first batch without one; a failed response and an error of the batch stream are reported after them and end the loop, a client that has gone ends it too |
| `CompletionsHandler.FlushIsNeededIff` | src/orchestrator/handlers/completions_detection/streaming.rs:695-704 | a choice is flushed exactly if its last batch ends at another index than its highest stored one |
| `CompletionsHandler.Flush` | src/orchestrator/handlers/completions_detection/streaming.rs:695-720 | one message for exactly the choices whose last batch ended before their last stored completion |
| `CompletionsHandler.ProcessDetectionBatchStream` | src/orchestrator/handlers/completions_detection/streaming.rs:649-722 | the messages, which hold no terminator, and the ending, for every sequence of batches, errors, lookups and every client |
| `CompletionsHandler.LastMessageClosesEveryChoice` | src/orchestrator/handlers/completions_detection/streaming.rs:691-720 | if every lookup saw the entries of the final state, the last message of every choice with a batch carries the finish reason, usage and identity of the choice's last stored completion, and at most one message per choice is added |
| `CompletionsRequest.FlushClosesEveryChoice` | src/orchestrator/handlers/completions_detection/streaming.rs:655-720 | final flush on a run: the same for every run whose batches come from texts sent before they were handled, or from the trailing empty text of a choice that has message 0 stored |
| `CompletionsRequest.FlushFindsEveryEntry` | src/orchestrator/handlers/completions_detection/streaming.rs:695-701 | the unwraps of the flush never panic |
| `CompletionsRequest.BatchPanicsIff` | src/orchestrator/handlers/completions_detection/streaming.rs:581-592 | a batch makes the handler panic exactly if its choice has no entry or its chunk is inverted, all before it have a completion in range, and the client is still there |
| `CompletionsRequest.BackedBatchesDoNotPanic` | src/orchestrator/handlers/completions_detection/streaming.rs:574-620 | no batch panics if each comes from such texts |
| `CompletionsRequest.SendFinalPart` | src/orchestrator/handlers/completions_detection/streaming.rs:313-358 | when a final part is sent, what it holds, and that it panics exactly without metadata |
| `CompletionsRequest.HandleChunks` | src/orchestrator/handlers/completions_detection/streaming.rs:230-358 | setup errors, responses with flush, final part, in this order; panics exactly if a batch does, or the final part is due and the first item did not store the metadata or was not handled yet |
| `CompletionsRequest.HandleWholeDocument` | src/orchestrator/handlers/completions_detection/streaming.rs:294-358 | the stream as it is, then the final part; panics exactly if the first item did not store the metadata or the client did not take it |
| `CompletionsRequest.HandleForwarding` | src/orchestrator/handlers/completions_detection/streaming.rs:121-124 | without output detectors the stream is passed on as it is |
| `CompletionsRequest.BeginRequest` | src/orchestrator/handlers/completions_detection/streaming.rs:58-118 | each early failure is reported and ends the stream at its own place; otherwise nothing is sent |
| `CompletionsRequest.BackedRequestsPanicIffMetadataIsMissing` | src/orchestrator/handlers/completions_detection/streaming.rs:313-324 | on chunk runs with backed batches and a finished producer, a request panics exactly if a final message is due and the stream did not open with a message that stores metadata |
| `CompletionsRequest.MissingMetadataPanics` | src/orchestrator/handlers/completions_detection/streaming.rs:313-324 | two requests that panic: whole-document detection on a stream that is one error, and a detector stream that fails before the producer has handled anything |
| `CompletionsRequest.HandleStreaming` | src/orchestrator/handlers/completions_detection/streaming.rs:53-139 | one terminator: over all paths, each with its own sends, a run that does not panic sends Ok(None) exactly once and last, after exactly the content stated; a run panics exactly if Panics says so and then never sends it |
| `EndToEnd.ClientGetsTheChunksInOrder` | src/orchestrator/handlers/completions_detection/streaming.rs:649-722 | for every interleaving of n detectors, select loop, actor, producer and handler whose batch loop ends regularly: the messages of a choice are one response per batch in ascending chunk order, each with the text of its chunk, as a multiset the detections of all n detectors for it, and the identity of the message the chunk ends with, then at most the flushed one; if no step loses a batch the i-th response is about the i-th chunk |
| `EndToEnd.OneMessagePerBatchAndTheRest` | src/orchestrator/handlers/completions_detection/streaming.rs:655-720 | nothing is sent twice or missing: a choice gets exactly one message per batch if its last batch ends at its highest stored index, and exactly one more, the completion at that index, if it ends below; no batch, no message |
| `EndToEnd.AllChunksAreSent` | src/orchestrator/types/detection_batch_stream.rs:61-97 | once the batch stream finished and no step lost a batch, every chunk that was reported was sent |
| `EndToEnd.ClientGetsTheWholeText` | src/orchestrator/handlers/completions_detection/streaming.rs:410-427 | then, if the chunks hold the text the producer fed, the responses of a choice hold the whole text of its stored completions in order; all its messages hold that and the text of the flushed completion, so exactly the whole text if and only if nothing is flushed or the flushed completion has no text |
| `EndToEndRequest.ClientOfTheHandler` | src/orchestrator/handlers/completions_detection/streaming.rs:53-139 | of all that handling a request sends, for every schedule, ending and patience of the client: the messages of a choice are such responses, in ascending chunk order, and what the flush adds comes only once every batch sent for the choice has its response; a client that takes a message per batch and one per choice gets all of it, if no stream failed |
| `EndToEndRequest.ClientOfTheShortcut` | src/orchestrator/types/detection_batch_stream.rs:38-54 | with one detector and one choice, which take the shortcut, the client is told what it would be told behind a batcher under any schedule that ends drained: one response per report, in the order of the reports |
| `EndToEndRequest.StreamErrorReachesTheClient` | src/orchestrator/handlers/completions_detection/streaming.rs:656-689 | for every schedule in which an error comes before the end of the detection streams, a client that takes a message per batch gets the first such error, and after it nothing about any choice |
| `EndToEndRequest.FailureIsReported` | src/orchestrator/handlers/completions_detection/streaming.rs:656-689 | the same for a batch that gets no response |
| `FinalMessage.FinalMessageOfChunks` | src/orchestrator/handlers/completions_detection/streaming.rs:313-358 | with the producer done, the last message before the terminator in the fields of the stream: whether it is sent, the identity of the first message, the usage of the first usage message, the detections and the warnings |
| `FinalMessage.FinalMessageOfWholeDocuments` | src/orchestrator/handlers/completions_detection/streaming.rs:294-358 | the same after a forwarded stream, about the items the client took |
| `Chat.ChatPathsSeeTheSameText` | src/orchestrator/handlers/chat_completions_detection/streaming.rs:381-439 | texts sent for a choice concatenate to the merged content; indices increase strictly |
| `Chat.MergeChatLogprobs` | src/orchestrator/handlers/chat_completions_detection/streaming.rs:646-659 | both columns concatenated in order |
| `Chat.ChatLogprobsAreAbsentIffAllAreEmpty` | src/orchestrator/handlers/chat_completions_detection/streaming.rs:658-659 | the merge is None exactly if every component of every chunk is empty |
| `Chat.MergedChatColumns` | src/orchestrator/handlers/chat_completions_detection/streaming.rs:646-659 | both merged columns are those of the first choices of the chunks, one by one, not exchanged |
| `Chat.ChatBatchLogprobsAddUp` | src/orchestrator/handlers/chat_completions_detection/streaming.rs:602-607 | consecutive covering batches have logprobs that concatenate to the whole choice's, absent together |
| `Chat.ChatResponseOutcome` | src/orchestrator/handlers/chat_completions_detection/streaming.rs:574-643 | a response is refused exactly if nothing is stored for the choice or in the range, panics exactly for an inverted range of a stored choice, and is otherwise built from the last chunk in the range |
| `Chat.ChatResponseForSentTextIsDefinite` | src/orchestrator/handlers/chat_completions_detection/streaming.rs:574-643 | for a chunk ending with a sent text the response neither waits, fails nor panics, is built from exactly that message, and is the same at every later moment |
| `ToolCalls.AbsorbDeltas` | src/orchestrator/handlers/chat_completions_detection/streaming.rs:667-703 | one chunk's deltas, each into the entry of its index; panics exactly at a delta without index |
| `ToolCalls.MergeToolCalls` | src/orchestrator/handlers/chat_completions_detection/streaming.rs:663-711 | panics exactly if a delta has no index; otherwise lists each merged call once, in no particular order, and None exactly if there is none |
| `ToolCalls.DeltasAreThoseOfTheFirstChoices` | src/orchestrator/handlers/chat_completions_detection/streaming.rs:663-667 | what is merged are all tool call fragments of the first choices, in order |
| `ToolCalls.FoldIsHomomorphism` | src/orchestrator/handlers/chat_completions_detection/streaming.rs:663-711 | merging xs then ys is combining the two merges |
| `ToolCalls.CombineAllIsAssociative` | src/orchestrator/handlers/chat_completions_detection/streaming.rs:663-711 | the combination is associative |
| `ToolCalls.MergingToolCallsIsHomomorphism` | src/orchestrator/handlers/chat_completions_detection/streaming.rs:663-711 | both, for lists of chunks |
| `ToolCalls.MergedCallsAreFragmentsInOrder` | src/orchestrator/handlers/chat_completions_detection/streaming.rs:667-702 | one call per distinct index; arguments and custom input are all fragments of the index in order; id, kind and names are the last ones told |
| `ToolCalls.SplittingAFragmentChangesNothing` | src/orchestrator/handlers/chat_completions_detection/streaming.rs:683-686 | an argument fragment split over two deltas merges to the same calls |
| `Masks.SliceIsTheTextBetween` | src/orchestrator/common/utils.rs:32-35 | what skip and take select, for regular, overlong and inverted ranges |
| `Masks.MasksAreApplied` | src/orchestrator/common/utils.rs:38-49 | with masks there is one input per mask, at its start and with the text between its positions; without masks the whole text is the only input |
| `Masks.OnlyAndAllMaskedPositionsAreRead` | src/orchestrator/common/utils.rs:38-49 | for regular masks, a position of the text is read exactly if some mask holds it, and read as it is |
| `Masks.AcceptedMasksFitIffAscii` | src/models.rs:135-148 | validation counts bytes, slicing counts characters: it accepts exactly the masks that select a non-empty part in full if and only if the text is ASCII |
| `UnarySort.SortByStartSorts` | src/orchestrator/common/tasks.rs:233 | sorted by start, and a permutation |
| `UnarySort.SortedByNumbers` | src/orchestrator/common/tasks.rs:233 | starts do not decrease, and detections without one come first |
| `UnarySort.SortByStartIsStable` | src/orchestrator/common/tasks.rs:233 | detections with the same start keep their order |
| `UnarySort.SortsAlikeIffSameGroups` | src/orchestrator/common/tasks.rs:232-233 | two arrival orders sort alike exactly if every group with the same start arrives in the same order |
| `UnaryOrder.ResultIsSortedAndExact` | src/orchestrator/common/tasks.rs:205-234 | for every completion order: an error exactly if a request fails, a chunk request taking precedence, else sorted, starts not decreasing, and exactly the detections at or above their threshold, with multiplicity |
| `UnaryOrder.OrdersAgreeIffTiesDo` | src/orchestrator/common/tasks.rs:205-234 | two completion orders give the same sequence exactly if ties arrive alike; always if starts are distinct |
| `UnaryOrder.ChunkOrderDoesNotMatter` | src/orchestrator/common/tasks.rs:60-93 | with detectors that judge contents one by one, the order of chunk requests does not matter either |
| `UnaryOrder.TiesKeepTheOrderOfCompletion` | src/orchestrator/common/tasks.rs:230-233 | two detections with the same start come in the order their detectors answered |
| `UnaryFindings.ChunksAreThoseOfAllInputs` | src/orchestrator/common/tasks.rs:46-93 | the chunks of a chunker are those of all its inputs, shifted by their offsets; it fails exactly if it is missing or fails on an input |
| `UnaryFindings.FoundIsWhatTheDetectorSaid` | src/orchestrator/common/client.rs:104-150 | a detector is asked about the texts of all its chunks, and what it finds is each of its answers, moved to its chunk |
| `UnaryFindings.ResultHoldsWhatTheDetectorsSaid` | src/orchestrator/common/tasks.rs:184-235 | a detection is in the result exactly if a detector said it about one of its chunks with a score that reaches its threshold |
| `UnaryCoordinates.MaskedInputsAreFromText` | src/orchestrator/common/utils.rs:38-49 | every masked input is the text from its offset on, for all masks, and there is at least one input |
| `UnaryCoordinates.DetectionsCarryTheTextAtTheirPositions` | src/orchestrator/common/client.rs:126-144 | coordinates compose: whatever masks, chunkers, detectors and completion order, the original text between the returned start and end is the detection text |
| `EventStream.HandleStreaming` | src/clients/openai.rs:472-521 | what the direct path sends for every sequence of events |
| `EventStream.HandleContent` | src/clients/openai.rs:608-668 | what the pieces of one content send, and whether they end the stream |
| `EventStream.HandleStreamWithBody` | src/clients/openai.rs:565-687 | what the router path sends for every sequence of events |
| `EventStreamDeliveries.DirectPathDelivers` | src/clients/openai.rs:472-521 | direct path, event by event: a message, an error response or a parse failure per event, until [DONE] delivers the terminator or the stream fails |
| `EventStreamDeliveries.RouterPathDelivers` | src/clients/openai.rs:565-687 | router path, event by event: nothing for png events, a reply per payload of the others, and the first stream error, err event or [DONE] ends it with its own delivery |
| `EventStreamProperties.DeliveriesEndWithTheFirstEnd` | src/clients/openai.rs:472-521 | receiver shape: one delivery per payload up to the first end; Ok(None) at most once and last; nothing after a failure of the stream; parse failures do not stop it |
| `EventStreamProperties.NothingFollowsTheEnd` | src/clients/openai.rs:565-687 | what comes after the end does not matter |
| `EventStreamProperties.EveryPayloadIsClean` | src/clients/openai.rs:608-625 | every payload split off any content is non-empty, without trailing white space and without a blank line |
| `EventStreamProperties.BlanksAreTrimmed` | src/clients/openai.rs:611-617 | spaces, tabs and line ends around a payload are trimmed and nothing else |
| `EventStreamProperties.RoundTripIffClean` | src/clients/openai.rs:608-625 | printing payloads as events and splitting gives them back exactly if all are clean |
| `EventStreamProperties.RegroupingChangesNothing` | src/clients/openai.rs:580-668 | the grouping of payloads into envelopes or raw events makes no difference to what is delivered |
| `EventStreamProperties.RouterAgreesWithDirect` | src/clients/openai.rs:580-668 | the router path delivers what the direct path delivers, if every payload before the first marker parses as a message or an error response |
| `Retry.RetryFunction` | src/clients/generation.rs:42-89 | at most max_retries + 1 calls; the first success or final error is returned; total sleep 2^max_retries - 1 ms when all fail; the backoff overflows exactly if there are more than 64 retries and the first 65 calls fail retryably |

## Left out

- Retry.RetryFunction: what happens after the backoff overflows; a build with overflow checks panics there, one without sleeps 0 ms and goes on.
- Masks.SliceIsTheTextBetween: describes the release build, in which subtraction wraps around; a build with overflow checks panics on an inverted mask, which only unvalidated prompt masks can contain.
- Producers.ProcessStream: the loops that send to several channels are one action each; a consumer may see them partly done, which no stated property depends on.
- ToolCalls.MergeToolCalls: the order of the merged calls, which the source leaves to a hash map.
- CompletionsHandler.Flush: the order of the choices, which the source leaves to a hash map.
- Mailbox and channel capacities (32 and 128): queues are unbounded, which allows more runs than the code has.
- Fairness of the scheduler: termination of the drain is stated as a bound on effective steps and the existence of a schedule.
- Broadcast of inputs to chunkers and of chunks to detectors, including receivers that lag behind.
- The step between chunk streams and detector streams; a detector stream is any stream of reports and errors.
- Whole-document chunking of a stream (src/orchestrator/common/tasks.rs:127-162), which collects the stream and unwraps on channel close.
- EndToEnd.ClientGetsTheChunksInOrder: takes from the chunkers that a chunk ends with a message whose text they were sent before; the services between the producer and the detectors are not modelled.
- CompletionsRequest.FinishRun: takes usage, the empty-output flag and the metadata from one moment; the source reads them one after another (src/orchestrator/handlers/completions_detection/streaming.rs:313-332), and after a failed pipeline the producer may act between these reads.
- CompletionsRequest.HandleStreaming: the messages listed include those sent, and ignored, after the client has gone.
- The chat handler's terminators and finish-reason messages: its error paths send the terminator twice, and the finish check looks at a state that may still be growing.
- The 30 second wait for a chat entry: the response is modelled from the state in which the wait ends.
- The older streaming classification handler, which sends before it records.
- Validation and grouping of detectors, request validation other than masks, conversions between message types: they would only add easy members.
- Lookup of detectors and clients in the configuration, except for a missing chunker.
- Evidence and metadata fields of detections, and all fields that are only copied.
- Scores, thresholds and log probabilities are reals; NaN is not modelled.
- Indices are unbounded naturals, except in mask arithmetic and in the backoff.
- HTTP, gRPC, TLS, configuration, tracing, JSON and the byte-level parsing of event streams.
