# Verification model of the inference framework

A Dafny model of the concurrent and arithmetic core of the ONNXRuntime inference framework, with proofs.
`dafny verify dfyconfig.toml` checks the whole project.

| file | models |
|---|---|
| `Runner.dfy` | the three stages a scheduler drives, and what "slot by slot" means |
| `BatchScheduler.dfy`, `BatchHistory.dfy`, `BatchClosing.dfy` | micro-batching: queueing, rounds, preprocess fan-out, infer and post tasks, promises, closing; each batch with buffers of its own |
| `BufferSlots.dfy`, `Gathering.dfy` | the device pools as the schedulers use them: contents, release callbacks, lost slots, conservation |
| `BatchBuffers.dfy`, `BatchRefinement.dfy`, `BatchFollows.dfy`, `BatchRuns.dfy`, `BatchSharing.dfy`, `BatchBlocking.dfy`, `BatchEnds.dfy` | the batch scheduler over those pools: when it does what `BatchScheduler.dfy` says and can do all that, when requests get mixed, when its worker waits for good, when a batch can be brought to its end |
| `AsyncScheduler.dfy`, `AsyncPromises.dfy`, `AsyncAnswers.dfy`, `AsyncSharing.dfy`, `AsyncProgress.dfy` | the pipelined scheduler over the pools: whose data a request is answered from, and when it can be answered at all |
| `SyncScheduler.dfy`, `SchedulersAgree.dfy` | the sequential scheduler, and the agreement of the three |
| `SpscQueue.dfy`, `Arithmetic.dfy` | the lock-free ring, its masks and 64-bit wrap-around |
| `TensorBufferPool.dfy`, `ThreadPool.dfy`, `ThreadSafeQueue.dfy` | the device buffer pool, the job pool, the closable queue |
| `Candidates.dfy`, `GpuFilter.dfy`, `YoloPostprocess.dfy` | class scan, CUDA compaction under any interleaving, host clamp, box decode, CPU path |
| `Letterbox.dfy`, `GpuPreprocess.dfy`, `Staging.dfy`, `NAFNet.dfy` | letterbox geometry, the preprocessing kernel, the device memory it reads images from, the restoration round trip |
| `Percentile.dfy` | the benchmark's percentiles |

## How it is modelled

- A concurrent component is a `State` value, an `Event` for each step another thread can come between, and `Exec`, which runs
  any sequence of events; an event that is not enabled changes nothing, so "every run" is "every event sequence". The
  schedulers, the thread pool, the closable queue and the filter kernel also have a class that holds their fields; its methods
  are the locked sections, tasks or kernel bodies, and a ghost `log` ties each call to the events it performs, so the results
  about runs hold of the object. The ring's class keeps the interleaving model's state as a ghost field instead, and the buffer
  pool's methods are proved against the functions that the runs are made of.
- A step that may throw, an executor that may refuse a job, a timeout, a stale atomic load and the contents of a recycled
  buffer are parameters of events: the proofs cover every choice.
- Floats are reals; `std::round` is half away from zero, `static_cast<int>` truncates, kernel flooring is `Floor`.
- The network is an abstract function of the tensor. `Runner.SlotWise` states the only assumption made about it and about
  postprocess: one result per slot, depending on that slot alone. `GpuPreprocess.LaunchIsDeterministic` proves the
  corresponding fact of the preprocessing kernel, that a launch at a slot's offset fills that slot and touches no other.
- `Runner.output` says where inference leaves its result: in memory of its own, or in a slot of the output pool with a release
  callback, and then how many copies of that tensor postprocess makes. Each copy runs the callback when it dies, and so does the
  original, at any later time. The detector and the restorer make one copy (src/runner/detect/YoloDetector.cpp:238,
  src/runner/image_restoration/NAFNet.cpp:110: moving from a const reference copies), and the schedulers are instantiated for
  these two only (src/scheduler/AsyncScheduler.cpp:6-7, src/scheduler/BatchScheduler.cpp:6-7). The classifier makes none
  (src/runner/classify/ResNet.cc:80) but has no `runner_type_trait`. An output in memory of its own belongs to builds without
  CUDA: in a CUDA build whose device is not active, infer does not find the tensor it is given and throws (include/backend/OrtSessionWrapper.h:453-466, 514-516).
- So no runner in use returns its output slots once. The positive results therefore also hold of runs in which no inference
  starts while another output waits for its postprocess, whatever the number of copies (`AsyncAnswers.Spaced`,
  `BatchRefinement.Spaced`): at such a load the answers are right.
- `Runner.staging` and `Runner.filtered` say whether the stages work in slots of the detector's staging and filter pools. A task
  takes such a slot and returns it within its step; the model counts the slots that have been kept for good. What postprocess
  finds, and which image is read when one overruns its staging slot, are parameters of events or arbitrary relations.

## What the code does not keep

These hold of the code as it is; each has a lemma that names the exact condition or a run that shows it.

- A postprocess that copies the output tensor returns its slot of the output pool twice, so two inferences can be given the
  same slot and a request can be answered from another one's pixels, in the pipelined scheduler
  (`AsyncSharing.TwiceReturnedMixesRequests`) and in the batch scheduler (`BatchSharing.TwiceReturnedMixesRequests`),
  for every pool size.
- An image of more bytes than its staging slot, such as a full HD one for a 640 by 640 network, overwrites the image of another
  preprocess or is overwritten itself (`Staging.IsolatedIff`, `Staging.FullHdOverruns`), and a request is answered from what is
  read then (`AsyncSharing.OverrunMixesRequests`, `BatchSharing.OverrunMixesRequests`).
- `AsyncSharing.PipelineRightIff` and `BatchSharing.BatchingRightIff` are the exact conditions for all answers to be right.
- Without CUDA all requests of the pipelined scheduler share one tensor buffer, so overlapping requests can be answered from
  each other's pixels (`AsyncSharing.SharedBufferMixesRequests`).
- The detector's postprocess returns early when it finds nothing and keeps its filter slot. After as many such images as there
  are filter slots, without any exception, the pipelined scheduler gives no request a value any more
  (`AsyncProgress.EmptyScenesUseUpTheFilters`, `AsyncProgress.NoFilterNoValue`), and the batch scheduler's worker ends up waiting
  for a tensor buffer for good, with the mutex held (`BatchBlocking.EmptyScenesBlock`).
- An inference that throws keeps its input slot. After as many throws as there are slots the pipelined scheduler gives no
  request a value any more (`AsyncProgress.ThrowsUseUpThePool`); the same holds of preprocesses and staging slots
  (`AsyncProgress.ThrowsUseUpTheStaging`). `AsyncProgress.ServableIff` and
  `AsyncProgress.ServableWhateverIff` are the exact conditions, for some and for all things that postprocess may find.
- A batch whose preprocess or inference throws keeps its input slot too. After as many such batches the worker waits for a
  buffer for good, so that no request can even be submitted (`BatchBlocking.ThrowingPreprocessBlocks`). As a preprocess that
  throws also keeps its staging slot, one batch of throwing preprocesses can be enough
  (`BatchBlocking.OneBatchOfThrowsBlocks`). `BatchBlocking.BufferComesIff` and `BatchBlocking.WaitEndsIff` are the exact
  conditions for a waiting worker, `BatchEnds.BatchEndsIff` for a dispatched batch.
- If the post executor refuses a batch, the promises have already been moved into the refused job and the catch block sees an
  empty vector: none of them is ever set (`BatchScheduler.EndedBatchOutcomes`, `BatchClosing.RefusedBatchIsNeverSet`). The
  job dies with the last reference to them, so their futures report a broken promise instead of the exception.
- Closing the batch scheduler drops the newest (queue length mod batch) requests (`BatchClosing.ResidueAtExit`); their
  promises are never set either and end as broken ones when the scheduler is destroyed.
- A postprocess exception of the pipelined scheduler never reaches the promise, which ends as a broken one
  (`AsyncPromises.PromisesSetOnce`, `AsyncProgress.PostThrowLeavesPromiseUnset`).
- The filter kernel's counter reset is not ordered before the atomicAdds of later blocks, although the comment beside it says
  the fence is enough (`GpuFilter.CountRightIff`, `GpuFilter.ResetAlwaysFirstIff`).
- The CPU and CUDA paths can disagree for thresholds that are not positive, on predictions without a positive class score whose
  first score is not zero (`Candidates.SameCandidateIff`, `Candidates.PathsAgreeIff`), and the rounding path can leave the image
  by one pixel (`YoloPostprocess.RoundedOvershootIff`).
- The preprocessing kernel's image area is one column or row too large when the border is odd, although its comment equates it
  with the resized size (`Letterbox.KernelAreaIff`).
- The default `bgr_to_rgb: true` makes the restorer swap red and blue in the image it returns
  (`NAFNet.RoundTripIsIdentityIff`).
- A buffer returned to the device pool twice is lent to two clients (`TensorBufferPool.DoubleReturnSharesASlot`).
- A ring of requested capacity 0 accepts a push and has no cell for it (`SpscQueue.FirstPushAcceptedIff`), and the constructor's
  doubling loop could not stop for requests above 2^63 (`SpscQueue.DoublingStopsIff`), for which no vector can be allocated.

## Model

| member | source | states |
|---|---|---|
| BatchHistory.BatchingRefinesSequential | include/scheduler/BatchScheduler.h:84-121 | in every run in which each batch has tensor and output buffers of its own, a request answered with a value gets the value of the sequential scheduler for that image alone, whatever the batch split, task order and stale slots |
| BatchRefinement.RunsRefine | include/scheduler/BatchScheduler.h:61-151 | over the pools, if images fit their staging slots and output slots are returned once (or no inference starts while an output waits), every run does what a run with buffers of the batches' own does: same queue, batches, promises and outcomes |
| BatchRefinement.PooledBatchingRefinesSequential | include/backend/OrtSessionWrapper.h:571-606 | under the same conditions every answered request gets the sequential answer |
| BatchFollows.StepsFollow | include/scheduler/BatchScheduler.h:48-151 | the other direction: after such a run every step the scheduler can make with buffers of the batches' own can be made over the pools, with the same effect, if the slots for it are there, and a pending release callback always can |
| BatchFollows.OverrunReads | src/runner/detect/YoloDetector.cpp:204-214 | when one of two images preprocessed side by side does not fit, a preprocess of any slot of any batch may read what is there instead |
| BatchFollows.KeptSlotsAccountedFor | src/runner/detect/YoloDetector.cpp:286-306 | the staging and filter slots are those left and those kept, each by a preprocess that threw with it, or a postprocess that threw with it or found nothing |
| BatchSharing.TwiceReturnedMixesRequests | include/TensorBuffer.h:39-46 | with a postprocess that copies the output, a run without exceptions, for every pool and batch size, in which a request is answered from another request's pixels |
| BatchSharing.OverrunMixesRequests | src/runner/detect/YoloDetector.cpp:204-214 | a run without exceptions in which the copy of an image that does not fit changes what another preprocess reads, and so its answer |
| BatchSharing.BatchingRightIff | src/runner/detect/YoloDetector.cpp:238 | for a runner whose answers depend on what it reads, all runs are right exactly when output slots are returned once and images fit their staging slots, or there are not two staging slots and two tensor buffers |
| BatchBlocking.BufferComesIff | include/device/InferTensorBufferPool.h:71-80 | a waiting getTensorBuffer can still return exactly when an input slot is free, or a batch waits for inference with no thrown preprocess and a staging slot for those still to run, and an output slot is left or can be given back by a postprocess that has a filter slot |
| BatchBlocking.WaitEndsIff | include/scheduler/BatchScheduler.h:61-69 | the same counted: spoiled batches against input slots, and output slots lost or held for want of a filter slot against all |
| BatchBlocking.BlockedForGood | include/scheduler/BatchScheduler.h:48-62 | otherwise the worker keeps the mutex in every continuation: nothing is accepted and nothing leaves the queue |
| BatchBlocking.ThrowingPreprocessBlocks | include/scheduler/BatchScheduler.h:61-62 | for every pool size, a run of throwing preprocesses after which the worker is blocked for good |
| BatchBlocking.OneBatchOfThrowsBlocks | src/runner/detect/YoloDetector.cpp:204-208 | if there are no more staging slots than slots in a batch, one batch of throwing preprocesses, and nothing else that throws, leads to a worker blocked for good |
| BatchBlocking.EmptyScenesBlock | src/runner/detect/YoloDetector.cpp:286-289 | for pools of any size, a run without exceptions in which batches without detections lead to a worker blocked for good |
| BatchEnds.BatchEndsIff | include/scheduler/BatchScheduler.h:96-150 | after any run a dispatched batch can be brought to its end by tasks that return exactly when the staging, output and filter slots it still needs are there |
| SchedulersAgree.BatchAgreesWithSync | include/scheduler/SyncScheduler.h:83-89 | a run of the batch scheduler over its pools under those conditions and any run of the sequential one that answer the same image with values give the same value |
| Runner.SlotAnswersAlone | include/scheduler/stage/Stage.h:36-38 | a slot holding an image's data is answered as that image alone, at any position and beside any other slots |
| BatchHistory.HistoryInOrder | include/scheduler/BatchScheduler.h:71-93 | dispatched batches followed by the queue are the submitted requests in order, each with its own promise; batches have 1..batch_ requests |
| BatchScheduler.RoundTakesABatch | include/scheduler/BatchScheduler.h:61-75 | with valid buffers a pass of the do-while always dispatches (the insufficiency break is dead); a short batch needs a timeout and empties the queue |
| BatchClosing.WakeDecides | include/scheduler/BatchScheduler.h:51-60 | a waiting worker starts a round on a full queue or on a timeout with data, leaves when closed with less than a batch, and otherwise goes on waiting |
| BatchClosing.QueueDrains | include/scheduler/BatchScheduler.h:47-151 | after any run, unless closed, wake-ups of the worker and rounds that get a tensor buffer dispatch every submitted request, in order |
| BatchClosing.FullBatchesLeave | include/scheduler/BatchScheduler.h:51-151 | without any timeout, wake-ups and rounds that get a buffer leave fewer than batch_ requests, the newest, in the queue |
| BatchHistory.RequestOfSlot | include/scheduler/BatchScheduler.h:84-88 | slot i of a batch holds the request submitted as number offset + i together with that request's promise |
| BatchHistory.PromiseInOnePlace | include/scheduler/BatchScheduler.h:84-88 | no promise sits in two slots or two batches |
| BatchHistory.BatchesNeverStick | include/scheduler/BatchScheduler.h:96-150 | with buffers of the batches' own, outputs[i] is in range, an unended batch has a runnable task, every task uses up a measure, and at the end all promises are set unless the post executor refused the job |
| BatchHistory.PreprocessesRunFreely | include/scheduler/BatchScheduler.h:90-92 | a pending preprocess task can run at any time, in any order and beside any other task |
| BatchHistory.TasksRunFreely | include/scheduler/BatchScheduler.h:96-150 | every later step of a batch waits only for the next future or for the step before it, and has the effect of its code |
| BatchScheduler.EndedBatchOutcomes | include/scheduler/BatchScheduler.h:111-146 | all promises of an ended batch have an outcome exactly when the post executor accepted the job; otherwise none has |
| BatchClosing.RefusedBatchIsNeverSet | include/scheduler/BatchScheduler.h:111-112 | a run from the start in which the post executor refuses a batch: its promise stays unset in every continuation |
| BatchScheduler.RunsKeepOutcomes | include/scheduler/BatchScheduler.h:118-131 | however the run continues, a promise that has been set keeps its outcome |
| BatchClosing.ResidueAtExit | include/scheduler/BatchScheduler.h:151-157 | with valid buffers the worker exits leaving the newest (queue length at close) mod batch_ requests, none exactly when that length is a multiple of batch_ |
| BatchClosing.ResidueOfRun | include/scheduler/BatchScheduler.h:151-157 | of a run that closes the scheduler: all submissions but the newest (queue length at that moment) mod batch_ have been dispatched when the worker has exited |
| BatchClosing.ResidueIsNotServed | include/scheduler/BatchScheduler.h:55-60 | a run in which an accepted request is never dispatched because the scheduler is closed first |
| BatchScheduler.BatchScheduler.Submit | include/scheduler/BatchScheduler.h:189-205 | submit refuses after close, otherwise appends the request and its new promise |
| BatchScheduler.BatchScheduler.Close | include/scheduler/BatchScheduler.h:177-182 | the destructor's locked section sets the flag and changes nothing else |
| BatchScheduler.BatchScheduler.RoundOnce | include/scheduler/BatchScheduler.h:61-151 | one pass of the do-while is one batching event; repeating means the queue shrank |
| BatchScheduler.BatchScheduler.RunTurn | include/scheduler/BatchScheduler.h:47-158 | one turn of run() is a wake-up followed by batching rounds; it stops inside getTensorBuffer, still holding the mutex, exactly when it needs more buffers than come, and otherwise ends with fewer than batch_ requests, exiting exactly when closed |
| BatchScheduler.BatchScheduler.InferTask | include/scheduler/BatchScheduler.h:96-150 | the infer task reaches the post queue exactly when nothing threw and the job was accepted; when something threw, every promise of the batch has the exception |
| BatchScheduler.BatchScheduler.PostTask | include/scheduler/BatchScheduler.h:111-133 | promises before a throwing set_value keep their values, all others get the exception; without a throw all get their values |
| SyncScheduler.ServesInOrder | include/scheduler/SyncScheduler.h:39-61 | futures are settled in submission order, values are the answers to the image alone, and after the worker's exit all accepted futures are settled |
| SyncScheduler.EveryRequestCanBeServed | include/scheduler/SyncScheduler.h:40-60 | after any run, closed or not, the worker's steps alone can give every waiting request its value |
| SyncScheduler.SyncScheduler.Submit | include/scheduler/SyncScheduler.h:75-100 | submit refuses after shutdown, otherwise queues the job |
| SyncScheduler.SyncScheduler.RunTurn | include/scheduler/SyncScheduler.h:39-61 | a worker turn runs the oldest job to its value or exception, or exits when closed and empty |
| AsyncAnswers.PipelineAnswersAlone | include/scheduler/AsyncScheduler.h:45-72 | in a CUDA build, if images fit their staging slots and no inference starts while an output waits (or slots are returned once), every delivered value is the answer to its own input, in every interleaving |
| AsyncSharing.PipelineRightIff | include/backend/OrtSessionWrapper.h:571-606 | all runs of a build deliver right answers exactly when the answer does not depend on the pixels, or it is a CUDA build that returns output slots once and in which no overrun of a staging slot can change an answer |
| AsyncSharing.TwiceReturnedMixesRequests | include/TensorBuffer.h:39-46 | with a postprocess that copies the output, a run of a CUDA build, for every pool size, where a request is answered from another request's pixels |
| AsyncSharing.OverrunMixesRequests | src/runner/detect/YoloDetector.cpp:128-138 | a run in which the copy of an image that does not fit changes what another preprocess reads, and so its answer |
| AsyncSharing.SharedBufferMixesRequests | include/backend/InferenceBackend.h:95-98 | without CUDA, a run where a request is answered from another request's pixels |
| AsyncPromises.PromisesSetOnce | include/scheduler/AsyncScheduler.h:50-88 | a promise is unset while its request is in the pipeline and set on leaving, unless postprocess threw |
| AsyncPromises.OutcomesAreFinal | include/scheduler/AsyncScheduler.h:60-88 | once a request has left the pipeline its outcome never changes |
| AsyncProgress.ServableIff | include/scheduler/AsyncScheduler.h:45-94 | after any run all requests can still be brought to their values, for something that postprocess may find, exactly when none waits for an input, staging or output slot of an exhausted pool and a filter slot is left for those not yet answered |
| AsyncProgress.ServableWhateverIff | src/runner/detect/YoloDetector.cpp:247-306 | and for everything that it may find exactly when there is a filter slot for each request not yet answered |
| AsyncProgress.ServableByCount | include/device/InferTensorBufferPool.h:71-80 | with output slots returned once the first condition is a count of the slots left in each pool |
| AsyncProgress.ServingAdvances | include/scheduler/AsyncScheduler.h:45-72 | every step that serves uses up a measure and leaves slots in the pools that had some |
| AsyncProgress.StuckForGood | include/device/InferTensorBufferPool.h:73 | a request bound to wait for a pool without slots is never given a value, however the run continues |
| AsyncProgress.ThrowsUseUpThePool | include/backend/OrtSessionWrapper.h:586-592 | for every pool size, a run of throwing inferences after which the next request is never given a value |
| AsyncProgress.ThrowsUseUpTheStaging | src/runner/detect/YoloDetector.cpp:128-150 | for every number of staging slots, a run of preprocesses that throw while they have one, after which the next request is never given a value |
| AsyncProgress.NoFilterNoValue | src/runner/detect/YoloDetector.cpp:247-248 | with no filter slot left no request, present or future, is ever given a value |
| AsyncProgress.EmptyScenesUseUpTheFilters | src/runner/detect/YoloDetector.cpp:286-289 | for every number of filter slots, a run without exceptions in which as many images are answered with nothing found and the next request is never given a value |
| AsyncProgress.SlotsAccountedFor | include/backend/OrtSessionWrapper.h:512-611 | each input slot is free, in one request's hands or lost, in every run; so is each output slot, or owed by a callback, if returned once |
| AsyncProgress.PostThrowLeavesPromiseUnset | include/scheduler/AsyncScheduler.h:64-67 | a run in which postprocess throws: the promise stays unset in every continuation |
| AsyncScheduler.AsyncScheduler.PreTask | include/scheduler/AsyncScheduler.h:50-88 | the preprocess closure copies the image to a staging slot, fills the tensor and hands over to the infer pool, or sets the exception |
| AsyncScheduler.AsyncScheduler.Stage | src/runner/detect/YoloDetector.cpp:128-150 | preprocess takes a staging slot and returns it unless it throws in between |
| AsyncScheduler.AsyncScheduler.InferTask | include/scheduler/AsyncScheduler.h:58-75 | the infer closure hands over to the post pool or sets the exception, and returns or loses its input slot |
| AsyncScheduler.AsyncScheduler.RunSession | include/backend/OrtSessionWrapper.h:512-611 | inference takes an output slot, fills it, and returns the input slot; a throw in between loses what was taken |
| AsyncScheduler.AsyncScheduler.PostTask | include/scheduler/AsyncScheduler.h:64-67 | the post closure reads the output and sets the value, or leaves the promise unset on an exception; the callbacks of the output and its copies are then owed, and its filter slot is kept if it threw or found nothing |
| AsyncScheduler.AsyncScheduler.UseFilter | src/runner/detect/YoloDetector.cpp:247-306 | postprocess takes a filter slot and returns it only when it found something |
| AsyncScheduler.AsyncScheduler.RunCallback | include/TensorBuffer.h:41-46 | a release callback puts the slot into the output queue |
| SchedulersAgree.AsyncAgreesWithSync | include/scheduler/AsyncScheduler.h:45-72 | a run of the pipelined scheduler in a CUDA build under those conditions and the sequential one give the same value to the same image |
| SpscQueue.RefinesBoundedFifo | include/queue/SPSCQueue.h:29-80 | in every interleaving with stale index loads popped values are a prefix of pushed ones, the cells hold the rest, and at most capacity_ - 1 are queued |
| SpscQueue.NeverTouchSameCell | include/queue/SPSCQueue.h:40-78 | a push and a pop in flight never access the same buffer cell |
| SpscQueue.InFlightAdvances | include/queue/SPSCQueue.h:40-75 | an operation in flight can always make its next access, inside the buffer and whatever the other side does, and ends with its item appended or the oldest one taken |
| SpscQueue.RefusalsAreExact | include/queue/SPSCQueue.h:34-72 | for all coherent loads, fresh or stale, push is refused exactly when capacity_ - 1 items are queued at the loaded head and pop exactly when none is at the loaded tail |
| SpscQueue.SizeIsQueueLength | include/queue/SPSCQueue.h:87-95 | the wrapping 64-bit size() is the queue length at the current indices and never exceeds capacity() for any loaded indices |
| SpscQueue.DoublingStopsIff | include/queue/SPSCQueue.h:20-26 | the doubling loop can stop exactly for requests up to 2^63 |
| SpscQueue.FirstPushAcceptedIff | include/queue/SPSCQueue.h:32-40 | the first push passes the test for a full ring exactly when the capacity is not 1, so also at capacity 0 |
| SpscQueue.MaskAdvances | include/queue/SPSCQueue.h:32 | masking with capacity_ - 1 advances an index modulo capacity_ |
| Arithmetic.PredMaskZero | include/queue/SPSCQueue.h:20 | c & (c - 1) is zero exactly for powers of two |
| Arithmetic.WrapThenMask | include/queue/SPSCQueue.h:90 | reduction modulo 2^64 before the mask does not change the result |
| SpscQueue.SPSCQueue.constructor | include/queue/SPSCQueue.h:16-27 | capacity_ is the least power of two not below a positive request; a request of 0 gives an empty buffer |
| SpscQueue.RoundedUp | include/queue/SPSCQueue.h:20-26 | the test and the doubling loop find the least power of two not below a positive request |
| SpscQueue.SPSCQueue.Push | include/queue/SPSCQueue.h:29-45 | push performs the three steps of the interleaving model and appends the item unless the ring is full |
| SpscQueue.SPSCQueue.Pop | include/queue/SPSCQueue.h:65-80 | pop performs its three steps and removes the oldest item unless the ring is empty |
| SpscQueue.SPSCQueue.Size | include/queue/SPSCQueue.h:87-91 | size() is the number of queued items |
| TensorBufferPool.OwnsExactlyTheSlots | include/device/InferTensorBufferPool.h:34-39 | owns() accepts exactly the slot addresses |
| TensorBufferPool.SlotsDisjoint | include/device/InferTensorBufferPool.h:56-58 | different slots share no byte |
| TensorBufferPool.PooledPointersOwnedIff | include/device/InferTensorBufferPool.h:42-58 | every queued pointer passes owns() exactly when the byte count fits 64 bits |
| TensorBufferPool.FreeAndHeldPartitionTheSlots | include/device/InferTensorBufferPool.h:70-98 | while clients return only what they hold, each slot is free once or held once, never both |
| TensorBufferPool.ReturnConservesIff | include/device/InferTensorBufferPool.h:82-98 | returning an owned pointer keeps the slots conserved exactly when it was held |
| TensorBufferPool.DoubleReturnSharesASlot | include/device/InferTensorBufferPool.h:92-95 | a pointer returned while free is handed to two clients |
| BufferSlots.SlotsArePointers | include/device/InferTensorBufferPool.h:70-98 | the numbered slots of the scheduler models are handed out and taken back as the pool's pointers are |
| TensorBufferPool.NothingAfterClose | include/device/InferTensorBufferPool.h:75 | after close every run hands out only nullptr |
| TensorBufferPool.InferTensorBufferPool.constructor | include/device/InferTensorBufferPool.h:42-59 | the free queue is the slots in address order |
| TensorBufferPool.InferTensorBufferPool.Acquire | include/device/InferTensorBufferPool.h:71-80 | nullptr once closed, otherwise the oldest free pointer |
| TensorBufferPool.InferTensorBufferPool.Release | include/device/InferTensorBufferPool.h:82-98 | nullptr and closed pools are ignored, foreign pointers throw, others join the free queue |
| TensorBufferPool.InferTensorBufferPool.Close | include/device/InferTensorBufferPool.h:100-116 | close is idempotent and drops the allocation |
| ThreadPool.JobsConserved | include/thread/ThreadPool.h:38-61 | jobs are taken once, in enqueue order; each accepted job is queued, running or finished; workers leave only after the stop with the queue empty |
| ThreadPool.WaitReturnsIff | include/thread/ThreadPool.h:45-56 | a waiting worker's wait returns exactly when there is a job or the pool is stopped; it takes the oldest job, or leaves without one |
| ThreadPool.EveryJobCanRun | include/thread/ThreadPool.h:42-60 | with a worker, after any run, stopped or not, steps of the workers alone can finish every accepted job, each once |
| ThreadPool.NothingAfterStop | include/thread/ThreadPool.h:94-96 | no job is accepted after the stop |
| ThreadPool.JoinRanEverythingIff | include/thread/ThreadPool.h:65-78 | when the join is complete all accepted jobs have run once, exactly when there is a worker or nothing was enqueued |
| ThreadPool.DrainProgress | include/thread/ThreadPool.h:42-60 | after the stop some live worker can move and every move lowers a measure |
| ThreadPool.ThreadPool.Enqueue | include/thread/ThreadPool.h:80-104 | enqueue throws after the stop, otherwise appends |
| ThreadPool.ThreadPool.WorkerWake | include/thread/ThreadPool.h:42-57 | a woken worker takes the oldest job or leaves |
| ThreadPool.ThreadPool.Destroy | include/thread/ThreadPool.h:65-78 | the destructor ends with all workers gone and, given a worker, every accepted job run once |
| ThreadSafeQueue.BoundedFifo | include/thread/ThreadSafeQueue.h:47-109 | returned values are a prefix of accepted ones and a bounded queue never exceeds its capacity |
| ThreadSafeQueue.OutcomesExact | include/thread/ThreadSafeQueue.h:47-125 | push is refused exactly when closed, pop exactly when closed and empty, TryPop exactly when empty; a popped value is the oldest accepted one |
| ThreadSafeQueue.WaitersWoken | include/thread/ThreadSafeQueue.h:52-100 | a waiting push gets in exactly when there is room and is refused exactly when closed; a waiting pop gets the oldest value exactly when there is one and is refused when closed without any |
| ThreadSafeQueue.WaitersCanLeave | include/thread/ThreadSafeQueue.h:63-136 | after an accepted push a waiting pop can return a value, after a pop a waiting push is accepted, after close every waiter can leave |
| ThreadSafeQueue.ClosedForGood | include/thread/ThreadSafeQueue.h:128-136 | after close nothing more is accepted and nobody starts to wait |
| ThreadSafeQueue.DrainsCompletely | include/thread/ThreadSafeQueue.h:87-109 | everything accepted stays poppable, in order |
| ThreadSafeQueue.ThreadSafeQueue.Push | include/thread/ThreadSafeQueue.h:47-65 | the locked sections of Push: wait, refuse or append |
| ThreadSafeQueue.ThreadSafeQueue.Pop | include/thread/ThreadSafeQueue.h:87-109 | the locked sections of Pop: wait, refuse or remove the oldest |
| ThreadSafeQueue.ThreadSafeQueue.TryPop | include/thread/ThreadSafeQueue.h:111-125 | remove the oldest or report empty |
| GpuFilter.EveryPassingPredictionOnce | src/device/gpu_filter.cu:29-59 | at the end, in every interleaving, the claimed predictions are exactly the passing ones, each once |
| GpuFilter.CountRightIff | src/device/gpu_filter.cu:21-27 | the final count is the number of passing predictions exactly when no atomicAdd came before the reset |
| GpuFilter.ResetAlwaysFirstIff | src/device/gpu_filter.cu:75-80 | with the launcher's grid the reset is first in every run exactly when no passing prediction belongs to a later block |
| GpuFilter.NoCellStoredTwice | src/device/gpu_filter.cu:48-57 | no output cell is stored twice and no store leaves the element's region |
| GpuFilter.StoredRow | src/device/gpu_filter.cu:48-57 | in every interleaving with the reset first, a claimed slot holds the row of the prediction that claimed it when the kernel has finished |
| GpuFilter.BoxOnInput | src/device/gpu_filter.cu:51-54 | the first four cells of a row are the prediction's numbers in the first four planes of the input |
| GpuFilter.BestOnInput | src/device/gpu_filter.cu:34-56 | the last two are its greatest class score, which reaches the threshold, and the lowest class that has it |
| GpuFilter.PassingOnInput | src/device/gpu_filter.cu:36-46 | a prediction passes exactly when a class score, in the planes after the fourth, reaches the threshold |
| GpuFilter.ThreadsMoveFreely | src/device/gpu_filter.cu:21-59 | in every run a thread with a prediction left can make its next step whatever the others do, once the counter is reset or if it is not in the first block |
| GpuFilter.KernelProgress | src/device/gpu_filter.cu:29-59 | once the counter is reset, early additions or not, the kernel can move exactly until it is finished |
| GpuFilter.Device.RunThread | src/device/gpu_filter.cu:30-59 | a thread's grid-stride loop runs to its end and leaves the other threads alone |
| GpuFilter.Device.RunKernel | src/device/gpu_filter.cu:5-61 | a whole launch leaves the number of passing predictions in the counter |
| YoloPostprocess.HostReadsCpuCandidates | src/runner/detect/YoloDetector.cpp:276-284 | after the clamp the host reads inside the buffer; it reads all CPU candidates as a multiset exactly when no atomicAdd came before the reset and at most max_detections_ pass, and in every run with the reset first, rows of distinct CPU candidates |
| YoloPostprocess.RegionsDisjoint | src/device/gpu_filter.cu:19 | batch elements write disjoint output regions |
| Candidates.PathsAgreeIff | src/runner/detect/YoloDetector.cpp:405-416 | for any number of classes, CPU and CUDA class scans select the same candidates with the same score and class, for all scores, exactly when the threshold is positive |
| Candidates.SameCandidateIff | src/device/gpu_filter.cu:34-46 | on one prediction they agree exactly when the threshold or some class score is positive or the first score is zero |
| Candidates.ScanIsLowestArgmax | src/device/gpu_filter.cu:34-44 | the scan ends at the lowest-numbered class of greatest score above its start |
| Candidates.ScanLoop | src/device/gpu_filter.cu:38-44 | the class loop computes the scan |
| YoloPostprocess.DecodeInvertsLetterbox | src/runner/detect/YoloDetector.cpp:333-336 | decoding a box that the letterbox mapped gives the box back |
| YoloPostprocess.DetectionsRoundTrip | src/runner/detect/YoloDetector.cpp:327-343 | the row of a letterboxed box inside the image becomes that box with its score and class: cut to whole pixels in the CUDA build, rounded in the CPU build, which drops exactly the empty ones |
| YoloPostprocess.WholeBoxesRoundTrip | src/runner/detect/YoloDetector.cpp:415-442 | a box with whole corners comes back exactly from both builds |
| YoloPostprocess.NoImageNoBox | src/runner/detect/YoloDetector.cpp:333-340 | a batch slot without an image only yields empty boxes at the origin |
| YoloPostprocess.TruncatedRectInside | src/runner/detect/YoloDetector.cpp:338-340 | the truncating path keeps boxes of non-negative size inside the image |
| YoloPostprocess.RoundedOvershootIff | src/runner/detect/YoloDetector.cpp:431-439 | the rounding path overshoots by one pixel at most, exactly when the box ends on the edge and begins halfway between pixels |
| YoloPostprocess.ClampCounts | src/runner/detect/YoloDetector.cpp:276-284 | every count is clamped in place and the total is zero exactly when nothing is kept |
| YoloPostprocess.DecodeRows | src/runner/detect/YoloDetector.cpp:327-343 | the decode loop yields one detection per slot, decoded from that slot's row, also for batch slots without an image |
| YoloPostprocess.CpuScan | src/runner/detect/YoloDetector.cpp:399-442 | the CPU loop yields, in order, the non-empty boxes decoded from the CPU candidates' rows, those of the agreement with the CUDA path |
| Letterbox.LayoutFillsTarget | src/preprocess/utils.cpp:33-41 | the image fits, borders are non-negative, image and borders fill the target, opposite borders differ by at most one |
| Letterbox.PlainSizes | src/preprocess/utils.cpp:13-35 | without alignment the axis with the tighter target reaches it and sets the scale, and the other side is the image's ratio rounded |
| Letterbox.AlignedSizes | src/preprocess/utils.cpp:19-35 | with alignment the image is fitted in the same way to a smaller target, the plain sizes each cut down to a multiple of 32 |
| Letterbox.PlainResizeOkIff | src/preprocess/utils.cpp:13-35 | without alignment the resize succeeds exactly when 2 w target_h >= h and 2 h target_w >= w |
| Letterbox.AlignedAxis | src/preprocess/utils.cpp:19-30 | with alignment the axis that sets the scale attains its multiple of 32 and the other stays within its aligned size |
| Letterbox.AlignedResizeOkIff | src/preprocess/utils.cpp:19-35 | with alignment the resize succeeds exactly when both first sizes are at least 32 |
| Letterbox.AlignedResizeOkByTarget | src/preprocess/utils.cpp:19-35 | the same on the arguments: the target has 32 pixels each way, 2 h target_w >= 63 w and 2 w target_h >= 63 h |
| Letterbox.KernelAreaIff | src/device/gpu_preprocess.cu:26-27 | the kernel's image area is the resized image exactly when the border is even, one column or row larger otherwise |
| GpuPreprocess.StoresCoverOnce | src/device/gpu_preprocess.cu:14-19 | the launch grid's stores and the 3 * dst_w * dst_h cells correspond one to one |
| GpuPreprocess.LaunchIsDeterministic | src/device/gpu_preprocess.cu:76-78 | the finished block depends on the source alone, not on thread order or earlier contents, and nothing outside it changes |
| GpuPreprocess.ReadInRange | src/device/gpu_preprocess.cu:49-56 | every neighbour read is inside the image's rows * step bytes |
| Staging.CopyInSlotIff | src/runner/detect/YoloDetector.cpp:136-138 | the copy of an image ends inside its staging slot, and then all kernel reads do, exactly when rows * step is at most the slot's 12 * dst_w * dst_h bytes |
| Staging.IsolatedIff | src/runner/detect/YoloDetector.cpp:40-50 | a preprocess is never disturbed by one of another image, whatever their slots, exactly when the sizes of both images fit the slot |
| Staging.FullHdOverruns | src/runner/detect/YoloDetector.cpp:136-138 | a 1920 by 1080 image for a 640 by 640 network does not fit |
| GpuPreprocess.MixBetween | src/device/gpu_preprocess.cu:64-68 | each interpolation is a convex combination |
| GpuPreprocess.SampleIsExact | src/device/gpu_preprocess.cu:34-68 | on a channel that is a + b x + d y + e x y the interpolation inside the image gives that function's value |
| GpuPreprocess.SampleClamps | src/device/gpu_preprocess.cu:42-46 | outside the image it gives the sample at the nearest place inside |
| GpuPreprocess.PixelIsExact | src/device/gpu_preprocess.cu:23-73 | for such a channel every pixel of the area between the borders has the exact value at its source coordinate, clamped, red and blue exchanged, and every other pixel the padding value |
| GpuPreprocess.FinishedCell | src/device/gpu_preprocess.cu:75-78 | a finished launch holds channel c of the pixel in row y and column x, normalised, at that row and column of plane c |
| GpuPreprocess.BorderCell | src/device/gpu_preprocess.cu:69-78 | and the normalised padding value in every cell of the border |
| GpuPreprocess.Normalised | src/device/gpu_preprocess.cu:76-78 | with a factor up to 1/255 every output lies in [0, 1] |
| GpuPreprocess.NormalisedInverts | src/device/gpu_preprocess.cu:76-78 | dividing an output by the factor gives the value back |
| GpuPreprocess.UnitScaleCopies | src/device/gpu_preprocess.cu:48-68 | at scale 1 the image area is the source's bytes, read row by row with the source's step, red and blue exchanged |
| GpuPreprocess.CoordinateInverts | src/device/gpu_preprocess.cu:31-32 | the inverse mapping aligns pixel centers |
| GpuPreprocess.RunThread | src/device/gpu_preprocess.cu:6-79 | a thread inside the image makes its three stores, any other none |
| GpuPreprocess.RunLaunch | src/device/gpu_preprocess.cu:90-97 | a launch in any thread order fills every cell with its pixel's value and leaves the rest |
| NAFNet.IdentityRoundTrip | src/runner/image_restoration/NAFNet.cpp:119-166 | with an identity network, or one less than half a quantisation step away from it, every image that fits comes back, with red and blue exchanged when bgr2rgb_ is set |
| NAFNet.RoundTripIsIdentityIff | src/runner/image_restoration/NAFNet.cpp:53-59 | the image itself comes back exactly when bgr2rgb_ is off or red equals blue everywhere |
| NAFNet.PaddingKeepsImage | src/preprocess/utils.cpp:122-149 | padding succeeds exactly when the target is large enough and keeps the image at the recorded offset in an even border of the given color |
| NAFNet.QuantiseNearest | src/runner/image_restoration/NAFNet.cpp:125-127 | a value in [0, 1] becomes exactly the byte nearest to 255 times it, values outside saturate |
| NAFNet.QuantiseInverts | src/runner/image_restoration/NAFNet.cpp:125-127 | /255, clamp, *255 + 0.5, truncate is the identity on bytes, and stays so under an error of less than half a step |
| NAFNet.Preprocess | src/runner/image_restoration/NAFNet.cpp:43-59 | preprocess throws on a small target without writing, otherwise fills slot 0's planes |
| NAFNet.ConvertAndNormalize | src/preprocess/utils.cpp:61-79 | the three planes hold the channels over 255 and nothing else is written |
| NAFNet.PlanarCell | src/preprocess/utils.cpp:64-78 | channel c of the pixel in row y and column x, over 255, is at that row and column of plane c |
| NAFNet.Postprocess | src/runner/image_restoration/NAFNet.cpp:134-165 | each slot's image is the crop of its own planes, every index inside its plane |
| NAFNet.RestoreWithIdentity | src/runner/image_restoration/NAFNet.cpp:43-168 | a whole pass restores the image from slot 0 and yields empty images for unfilled slots |
| Percentile.PercentileMonotone | benchmark/benchmark_runner.h:142-151 | percentile is monotone in p on [0, 100] |
| Percentile.PercentileWithinSamples | benchmark/benchmark_runner.h:142-151 | every percentile lies between the least and the greatest sample |
| Percentile.PercentileBetweenRanks | benchmark/benchmark_runner.h:145-150 | with 0 to 100 spread evenly over the ranks, the percentile a fraction of the way between two ranks is that far between their samples |
| Percentile.PercentileAtRank | benchmark/benchmark_runner.h:145-148 | at a whole rank the percentile is the sample of that rank |
| Percentile.OutermostPercentiles | benchmark/benchmark_runner.h:142-151 | percentile 0 is the least and percentile 100 the greatest sample |
| Percentile.Percentile | benchmark/benchmark_runner.h:142-151 | the samples are left sorted and the result is the percentile of the original samples |
| Percentile.ComputeResult | benchmark/benchmark_runner.h:153-180 | least and greatest sample, min <= p50 <= p90 <= p95 <= p99 <= max, the average between min and max, zeros for no samples |

## Left out

- ONNX Runtime sessions, execution providers, configuration, logging, benchmark timing and reporting, plotting and examples: I/O and foreign calls.
- Resampling inside cv::resize and non-maximum suppression: foreign code; the model ends where NMSBoxes is called.
- Rounding of IEEE floats and NaN scores: reals are used throughout.
- BatchScheduler.BatchScheduler.RoundOnce: takes one pass of the do-while as one step, because the worker holds the mutex throughout; a preprocess task that starts before the pass has popped its last request is ordered after the pass.
- BatchHistory.BatchingRefinesSequential: gives each batch buffers of its own; BatchRefinement.RunsRefine is the result without that assumption.
- SyncScheduler.ServesInOrder: takes the buffers of the sequential scheduler as always at hand; it too would wait for good once throwing inferences have used up the pool.
- AsyncScheduler.AsyncScheduler.PreTask: filling the tensor is one step, as is reading it in InferTask; without CUDA two closures can also tear the shared buffer half-way, which only adds wrong answers.
- Preprocess tasks that still run after their batch has failed, through a raw pointer to a freed TensorBuffer, and the destruction of a scheduler with tasks in flight beyond the worker's exit.
- Runner.SlotWise: takes postprocess for a function of the output. The detector's CUDA postprocess is one, up to the order of the rows, only while the counter reset comes first and at most max_detections_ predictions pass (YoloPostprocess.HostReadsCpuCandidates); otherwise which rows are kept depends on the interleaving.
- AsyncProgress.ServableIff: takes what postprocess finds as free, instead of computing it from the features; so do BatchBlocking.BufferComesIff and BatchEnds.BatchEndsIff.
- The filter kernel's count slots, which are taken and kept together with the filter slots, and the limits that the sizes of the thread pools put on how many tasks run at once, except that two preprocesses need two threads.
- AsyncScheduler.AsyncScheduler.PostTask: a postprocess that throws is taken to have made its copy of the output first; a zero over zero in the decoding of a slot without an image is taken for the lower bound.
- SpscQueue.SPSCQueue.constructor: requests above 2^63 are excluded, as is SpscQueue.RoundedUp, because no vector of that size can be allocated and the doubling loop could not stop (SpscQueue.DoublingStopsIff); for a request of 0 no ring is promised.
- TensorBufferPool.InferTensorBufferPool.constructor: models a cudaMalloc that succeeded with addresses that do not wrap; the failure paths throw before any pointer is queued.
- Waiting is modelled by enabling: a method that stands for the code after a wait requires the wait's predicate, and fairness of the scheduler is not modelled.
- Letterbox in the CUDA build of the detector does not call cv::resize and so does not fail on an empty size; Letterbox.LetterboxResize models the failing CPU path.
- The NAFNet CUDA batch preprocess, which keeps its letterbox parameters in a local buffer; the CUDA copies of the CPU paths.
- BufferPool, ObjectPool, SyncExecutor, the classifier and mini_batch_infer: near-duplicates that would add easier members.
