# Verified models of the audio transports, the output stream stack and the hang monitor

The project models the concurrent and stateful heart of the `audio/` directory: the shared-memory
capture transport, the playout handshake, the pooled output streams under `AudioOutputController`,
the audio-thread hang monitor and the WAV debug recorder. Check it with
`dafny verify dfyconfig.toml`.

## How the models are built

Each protocol is described twice where that pays off. A **machine** (`CaptureMachine`,
`PlayoutMachine`, `OutputStack` over `StreamPool`) is a total step function on values; a run is any
sequence of steps, so a statement about `Exec(start, run)` is a statement about every interleaving,
every failing send, every late reply and every timer. A DCHECK, CHECK or error report of the source
that would fire is recorded as a *fault*, and the theorems say that the set of faults stays empty. A
set of **objects** (`CaptureWriter`, `PlayoutReader`, `DispatcherImpl`, `ResamplerImpl`) has the
fields and loops of the source and is proved to go through the states of the machine, so that the
theorems about runs are theorems about the objects. `HangMonitor`, `OutputController` and
`WavRecorder` are objects throughout.

| file | what it holds |
|---|---|
| `Words.dfy`, `LossyQueue.dfy` | 32- and 64-bit wrap-around, ring positions; the reference queue that may lose but not reorder |
| `CaptureMachine.dfy`, `CaptureInvariant.dfy`, `CaptureTheorems.dfy`, `CapturePercentages.dfy`, `CaptureWriter.dfy` | `AudioInputSyncWriter`, the device thread and `AudioInputDevice::AudioThreadCallback` |
| `PlayoutMachine.dfy`, `PlayoutInvariant.dfy`, `PlayoutRenders.dfy`, `PlayoutStale.dfy`, `PlayoutReader.dfy` | `AudioSyncReader`, the device thread and `AudioOutputDeviceThreadCallback` |
| `StreamPool.dfy`, `DispatcherImpl.dfy` | `AudioOutputDispatcherImpl` over `AudioManagerBase` |
| `OutputStack.dfy`, `OutputStackProofs.dfy`, `OutputStackTheorems.dfy`, `OutputStackOutcomes.dfy`, `ResamplerImpl.dfy` | any number of `AudioOutputProxy` objects over `AudioOutputResampler` and its converters |
| `ManagerSystem.dfy` | any number of such stacks over one `AudioManagerBase` |
| `ProxyCalls.dfy` | the calls a client makes on a proxy, and why disciplined calls are always legal in the stack |
| `OutputController.dfy` | `AudioOutputController` driving proxies, with the proxy's DCHECKs and that discipline as preconditions |
| `HangMonitor.dfy` | `AudioManagerHelper` |
| `WavRecorder.dfy` | the WAV header, the file cursor and a reader of the format |

Some properties one would expect hold only under a condition that the code does not check. Each has its
exact condition and a concrete failing input:

* `WaitUntilDataIsReady()` takes a matching counter for the latest request's reply. That is right if
  and only if at most 2^32 requests were lost, unanswered or unread before the reply was taken
  (`PlayoutInvariant.PlayoutFreshness`); `PlayoutStale.StaleMatch` gives a run in which the wait
  succeeds although 2^32 controls were lost.
* The data size in a WAV header is the clipped payload if and only if the 64-bit product of the
  sample count and 2 does not wrap below the clipping limit (`WavRecorder.PayloadExact`);
  `WavRecorder.PayloadWraps` gives a sample count for which the header declares 2 bytes.

* Each of the two percentages that the capture writer's destructor reports is at most 100 if and only if
  the excess of one trailing count over the other is no more than the calls that stayed clear of the
  FIFO or dropped nothing, respectively (`CapturePercentages.FifoPercentageExact`, `DroppedPercentageExact`);
  `FifoPercentageExceeds` and `DroppedPercentageExceeds` give sessions that report 200 percent.

## Model

| member | source | states |
|---|---|---|
| `CaptureTheorems.CaptureRefinement` | audio/audio_input_sync_writer.cc:168-227 | in every run, delivered buffers, then unread ring segments, then waiting buffers are the written buffers less the dropped ones, in order and unaltered; with nothing dropped, delivered is a prefix of written |
| `CaptureTheorems.StepRefines` | audio/audio_input_sync_writer.cc:306-387 | each step of either side is one enqueue, loss or delivery of a lossy order-preserving queue, or changes nothing in it |
| `CaptureTheorems.RunRefines` | audio/audio_input_device.cc:382-447 | the same for any step after any run |
| `CaptureTheorems.NoUnreadOverwrite` | audio/audio_input_sync_writer.cc:343-387 | the segment being filled is never announced and unacknowledged, announced segments lie in the `number_of_filled_segments_` slots cyclically before the current one, and no step of either side changes those slots |
| `CaptureTheorems.FilledIsBehind` | audio/audio_input_sync_writer.cc:380-384 | the k-th announced buffer sits exactly as many slots before the current segment as buffers were announced since |
| `CaptureTheorems.ChecksNeverFire` | audio/audio_device_thread.cc:63-95 | no CHECK, DCHECK or sequence error of writer or reader fires in any run, however often the counters wrap, and no segment id is taken for the pause signal |
| `CaptureTheorems.CaptureAccounting` | audio/audio_input_sync_writer.cc:195-226 | after a flush the FIFO is empty or the ring full, a buffer written directly finds the FIFO empty, at most 100 queued, writes = announced + queued + dropped, errors count exactly the calls that dropped something, and the destructor's DCHECKs hold |
| `CaptureTheorems.LossExactly` | audio/audio_input_sync_writer.cc:262-304 | a buffer is lost exactly when its notification cannot be sent, or when the ring is full and a hundred buffers wait |
| `CaptureInvariant.StepKeeps` | audio/audio_input_sync_writer.cc:168-227 | every step of every side keeps counters, slots, contents, order and loss ledger in agreement |
| `CaptureInvariant.RunKeeps` | audio/audio_input_sync_writer.cc:168-227 | so they agree after any run from freshly built ends |
| `CaptureWriter.AckMatches` | audio/audio_input_sync_writer.cc:187-192 | whenever the writer is about to take an acknowledgement there is one, it is the next counter modulo 2^32, and some segment is filled |
| `CaptureWriter.NoticeMatches` | audio/audio_input_device.cc:405-420 | whenever the reader holds a notification it names the reader's own segment, whose id is the last one plus one, and is below the pause signal |
| `CaptureWriter.SyncWriter.Write` | audio/audio_input_sync_writer.cc:168-227 | the method, with the reader interfering between any two accesses, follows the machine; it takes every acknowledgement queued at entry, puts its buffer in the FIFO only if n segments are still unacknowledged after that and the flush, otherwise leaves the FIFO empty, and counts an error iff this call dropped something |
| `CaptureWriter.SyncWriter.WriteAll` | audio/audio_input_sync_writer.cc:168-227 | after any session of writes, what the client got, the unread ring segments and the FIFO are together the session's buffers less the dropped ones, in order |
| `CaptureWriter.SyncWriter.DrainAcknowledgements` | audio/audio_input_sync_writer.cc:181-193 | all acknowledgements queued at entry are taken, no more and no fewer: the filled count falls and the expected index advances by their number, each passing its checks |
| `CaptureWriter.SyncWriter.WriteDataFromFifoToSharedMemory` | audio/audio_input_sync_writer.cc:306-341 | afterwards the FIFO is a suffix of what it was, and empty or the ring is full; the result says whether every send worked |
| `CaptureWriter.SyncWriter.PushDataToFifo` | audio/audio_input_sync_writer.cc:262-304 | queues unless 100 buffers wait, and never exceeds 100 |
| `CaptureWriter.SyncWriter.SignalDataWritten` | audio/audio_input_sync_writer.cc:361-387 | on a successful send the segment, fill count and id advance together, with the fill count within the ring; on a failed one nothing changes |
| `CaptureWriter.SyncWriter.WriteParameters` | audio/audio_input_sync_writer.cc:343-359 | changes the parameters of the current segment only, which is in range |
| `CaptureWriter.SyncWriter.CheckSegment` | audio/audio_input_device.cc:404-420 | the reader's sequence and segment comparisons hold at every notification |
| `CaptureWriter.SyncWriter.DeliverSegment` | audio/audio_input_device.cc:422-447 | hands over the current segment's buffer and advances round the ring |
| `CaptureWriter.SyncWriter.Interfere` | audio/audio_device_thread.cc:59-96 | any number of turns of the receive/process/acknowledge loop leave the writer's own state alone and only add acknowledgements |
| `CaptureWriter.SyncWriter.Destroy` | audio/audio_input_sync_writer.cc:87-117 | subtracting the trailing counts never goes below zero; iff writes are left two percentages are reported, each the trimmed count times 100 over the writes left, and each at most 100 iff its condition on the untrimmed counts holds |
| `CapturePercentages.DroppedPercentageExact` | audio/audio_input_sync_writer.cc:104-117 | after any session the dropped-data percentage is at most 100 iff the final calls through the FIFO exceed the final calls with a drop by no more than the calls that dropped nothing |
| `CapturePercentages.FifoPercentageExact` | audio/audio_input_sync_writer.cc:104-117 | the FIFO percentage is at most 100 iff the final calls with a drop exceed the final calls through the FIFO by no more than the calls that did not use it |
| `CapturePercentages.DroppedPercentageExceeds` | audio/audio_input_sync_writer.cc:104-117 | a session after which 200 percent of the data counts as dropped |
| `CapturePercentages.FifoPercentageExceeds` | audio/audio_input_sync_writer.cc:104-117 | a session after which 200 percent of the writes count as having missed the deadline |
| `CapturePercentages.TrimmedFacts` | audio/audio_input_sync_writer.cc:99-107 | between calls the counters are those of the calls' outcomes, each trailing count at most its total and each total at most the writes |
| `PlayoutInvariant.PlayoutFreshness` | audio/audio_sync_reader.cc:246-297 | when the wait ends on a match, no control was ever lost, every request is answered and the renderer is idle iff the lag is within one counter lap; then the buffer holds the whole result of the latest request's Render with its delay and timestamp, unless it was the pause signal |
| `PlayoutInvariant.MatchSettles` | audio/audio_sync_reader.cc:265-282 | the step behind it: a match means all is settled iff the lag is within one lap |
| `PlayoutInvariant.ReadIsFreshOrSilent` | audio/audio_sync_reader.cc:198-240 | Read() puts out silence after a failed wait; PCM is silent exactly when muted; a bitstream, muted or not, exactly when its declared size or frame count is impossible; otherwise what shared memory holds, which is the latest request's Render |
| `PlayoutInvariant.PlayoutAccounting` | audio/audio_device_thread.cc:91-94 | reader index = renderer index + unanswered + lost controls modulo 2^32, pause signals included; queued replies are consecutive and end at the latest answer |
| `PlayoutInvariant.MissCounting` | audio/audio_sync_reader.cc:79-104 | missed and trailing counts are those of the run, the subtractions cannot underflow, the percentage lies in 0..100 |
| `PlayoutInvariant.WaitReaches` | audio/audio_sync_reader.cc:265-282 | receiving reaches a matching reply anywhere in the queue and discards exactly those before it |
| `PlayoutRenders.RenderPerControl` | audio/audio_device_thread.cc:78-94 | a queued control is the pause signal exactly if its request has the maximal delay, and Render() is called once for each control received that is not, never for a pause |
| `PlayoutRenders.SkipsConserved` | audio/audio_output_device_thread_callback.cc:79-117 | skipped frames handed to Render(), taken by Process() or still in shared memory sum up to all that were reported, modulo 2^32 |
| `PlayoutRenders.SizesAreLatest` | audio/audio_output_device_thread_callback.cc:119-122 | for a bitstream, shared memory declares the size and frame count the latest Render() returned with |
| `PlayoutInvariant.StepKeeps` | audio/audio_output_device_thread_callback.cc:79-122 | every step of browser and renderer keeps counters, signals, freshness and miss counts in agreement |
| `PlayoutInvariant.RunKeeps` | audio/audio_sync_reader.cc:153-297 | so they agree after any run |
| `PlayoutStale.StaleMatch` | audio/audio_sync_reader.cc:274-275 | a run with 2^32 lost controls in which the wait succeeds on an old reply and the buffer holds silence |
| `PlayoutReader.SyncReader.RequestMoreData` | audio/audio_sync_reader.cc:153-196 | with the renderer interfering between any two writes, follows the machine and advances the index whether or not the control was sent |
| `PlayoutReader.SyncReader.WaitUntilDataIsReady` | audio/audio_sync_reader.cc:246-297 | terminates; fails on an open socket only once the maximum wait is over; on success within one lap everything is settled |
| `PlayoutReader.SyncReader.Read` | audio/audio_sync_reader.cc:198-240 | counts one callback and its outcome; silence on a miss, on muted PCM and on impossible bitstream sizes only, and otherwise the shared buffer, which holds the latest request's Render |
| `PlayoutReader.SyncReader.RendererStep` | audio/audio_output_device_thread_callback.cc:79-122 | each access of the renderer follows the machine, and replies never outnumber unanswered controls |
| `PlayoutReader.SyncReader.Destroy` | audio/audio_sync_reader.cc:79-104 | the counts are trimmed without underflow, and the percentage is 100 times the missed count over the callbacks left, truncated, at most 100 |
| `StreamPool.CreateKeeps` | audio/audio_output_dispatcher_impl.cc:139-161 | creating a stream keeps the pool's partition, count, bound and cleanness; it succeeds iff the count is below the cap and the device is found and opens, and then that one new stream is idle |
| `StreamPool.OpenKeeps` | audio/audio_output_dispatcher_impl.cc:60-70 | opening keeps them; it succeeds iff a stream is idle or one can be made, and then counts one more idle proxy; an idle stream is left as it was |
| `StreamPool.StartKeeps` | audio/audio_output_dispatcher_impl.cc:72-100 | starting keeps them and succeeds iff a stream is idle or one can be made; it takes the stream that became idle last, or the new one, at the proxy's volume, never one that failed, and leaves other proxies' streams as they were |
| `StreamPool.StopKeeps` | audio/audio_output_dispatcher_impl.cc:102-109 | the stopped stream becomes the last idle one and nothing else of any stream changes; idle streams are all clean iff it had not failed |
| `StreamPool.SetVolumeKeeps` | audio/audio_output_dispatcher_impl.cc:111-121 | changes the volume of that proxy's stream only |
| `StreamPool.CloseIdleKeeps` | audio/audio_output_dispatcher_impl.cc:168-182 | closing idle streams keeps the oldest ones asked for and touches no playing stream |
| `StreamPool.CloseEachEffect` | audio/audio_output_dispatcher_impl.cc:172-180 | each of a list of distinct live streams is closed once more, forgotten and released; nothing else changes |
| `StreamPool.CloseStreamKeeps` | audio/audio_output_dispatcher_impl.cc:123-132 | closing a proxy keeps the invariant and, of the idle streams, exactly the oldest max(idle proxies, 1) |
| `StreamPool.DestroyClosesAll` | audio/audio_output_dispatcher_impl.cc:39-53 | afterwards every stream ever made is closed exactly once and the manager counts only the others' |
| `DispatcherImpl.AudioManagerBase.MakeAudioOutputStream` | audio/audio_manager_base.cc:194-228 | hands out and counts a stream iff the count is below the cap and the platform makes one |
| `DispatcherImpl.AudioManagerBase.CloseStream` | audio/audio_manager_base.cc:438-447 | releases one counted stream, the count being positive |
| `DispatcherImpl.AudioOutputDispatcherImpl.OpenStream` | audio/audio_output_dispatcher_impl.cc:60-70 | the object does what the pool operation says and stays valid |
| `DispatcherImpl.AudioOutputDispatcherImpl.StartStream` | audio/audio_output_dispatcher_impl.cc:72-100 | likewise, with no check firing |
| `DispatcherImpl.AudioOutputDispatcherImpl.StopStream` | audio/audio_output_dispatcher_impl.cc:102-109 | likewise |
| `DispatcherImpl.AudioOutputDispatcherImpl.CloseIdleStreams` | audio/audio_output_dispatcher_impl.cc:168-182 | the loop closes exactly the streams beyond `keep_alive` |
| `DispatcherImpl.AudioOutputDispatcherImpl.CloseStream` | audio/audio_output_dispatcher_impl.cc:123-132 | at most max(idle proxies, 1) idle streams remain |
| `DispatcherImpl.AudioOutputDispatcherImpl.Destroy` | audio/audio_output_dispatcher_impl.cc:39-53 | whatever was playing, every stream ever opened ends up closed exactly once |
| `OutputStackTheorems.PoolPartition` | audio/audio_output_dispatcher_impl.cc:60-132 | in every reachable state the logged streams are the disjoint union of distinct idle streams and those mapped to playing proxies, the map is injective with the proxies in kPlaying as keys, `idle_proxies_` counts those in kOpened or kStartError, and playing streams have their proxy's volume |
| `OutputStackTheorems.PoolConservation` | audio/audio_manager_base.cc:194-226 | in every reachable state no check has fired, idle streams are at most idle proxies + 1, the manager's count is the live streams plus what other stacks hold and within the cap, every stream is live or closed exactly once, and all are closed after destruction |
| `ManagerSystem.SharedCount` | audio/audio_manager_base.cc:194-226 | in every run of any number of stacks over one manager, its count is the live streams of all dispatchers together and within the cap, no check fires in any stack, so that it is positive at every release, and every stream any stack made is live or closed exactly once |
| `ManagerSystem.OwnRun` | audio/audio_manager_base.cc:438-447 | what one stack goes through in such a run is a run of that stack alone, with the others taking and releasing streams legally, so every theorem about one stack's runs holds for each of them |
| `ManagerSystem.SystemStepKeeps` | audio/audio_manager_base.cc:194-226 | a step of any stack keeps all stacks sound and their views of the count in agreement |
| `ManagerSystem.SystemRunKeeps` | audio/audio_manager_base.cc:194-226 | so they agree after any run |
| `ManagerSystem.StepManager` | audio/audio_manager_base.cc:438-447 | a stack's own step, whatever it is, leaves the other stacks' streams and the cap alone |
| `OutputStackTheorems.BoundAfterClose` | audio/audio_output_dispatcher_impl.cc:123-132 | right after a proxy closes, at most max(idle proxies, 1) idle streams |
| `OutputStackTheorems.DispatcherLifetime` | audio/audio_output_resampler.cc:287-302 | until destruction the inner dispatcher is neither replaced nor destroyed while a proxy is open; without one the parameters are original and there are no converters; fallback parameters with no proxy open imply an armed timer |
| `OutputStackTheorems.FallbackOnlyOnFirstOpen` | audio/audio_output_resampler.cc:348-361 | parameters change only on a first open of a low-latency stream with none open, or back to the original when the timer finds none open |
| `OutputStackTheorems.FallbackOrder` | audio/audio_output_resampler.cc:318-403 | a first open succeeds iff one of original, linear (Windows) and fake does, in that order of preference; linear has the original's layout and rate and the larger of its frame count and 2048, fake has the input's layout, rate and frame count; otherwise the original parameters remain |
| `OutputStackTheorems.ConverterAgreement` | audio/audio_output_resampler.cc:405-431 | a converter is started iff its proxy is in the playing map; a failed stream is still playing for a proxy whose converter knows, or is closed |
| `OutputStackTheorems.FailedStreamClosed` | audio/audio_output_resampler.cc:467-488 | a stream that failed while playing or stopping is closed by the stop |
| `OutputStackTheorems.FailedNeverRestarted` | audio/audio_output_resampler.cc:562-565 | a stream that starts for a proxy has never reported an error |
| `OutputStackOutcomes.OpenOutcome` | audio/audio_output_resampler.cc:318-403 | in every reachable state a proxy opens iff the resampler lives and a stream is idle or can be made, or on a first open of low-latency parameters one of the fallbacks can |
| `OutputStackOutcomes.StartOutcome` | audio/audio_output_dispatcher_impl.cc:72-100 | in every reachable state a proxy starts playing iff the resampler lives and a stream is idle, the most recent of which is taken, or can be made |
| `OutputStackOutcomes.StopOutcome` | audio/audio_output_resampler.cc:467-488 | a stop keeps the stream and all idle ones, unclosed, unless an error was seen then or earlier, and with one closes them all |
| `OutputStackOutcomes.ErrorRemembered` | audio/audio_output_resampler.cc:562-565 | an error of a proxy's stream is remembered until the proxy closes or the resampler is destroyed |
| `OutputStackOutcomes.ReinitializeTimer` | audio/audio_output_resampler.cc:448-465 | a close arms the timer exactly when no proxy is open on fallback parameters; firing with none open restores the original parameters and drops the dispatcher, and otherwise changes nothing; no other call touches the timer |
| `OutputStackOutcomes.CloseTimerArmed` | audio/audio_output_dispatcher_impl.cc:163-191 | in every reachable state an idle stream means an armed close timer, and when that fires no stream stays idle |
| `OutputStackProofs.StepKeeps` | audio/audio_output_resampler.cc:318-488 | every client call, timer firing, device error and destruction keeps the stack's invariant |
| `OutputStackProofs.RunKeeps` | audio/audio_output_proxy.cc:24-93 | so it holds after every legal run of any number of proxies |
| `ResamplerImpl.AudioOutputResampler.OpenStream` | audio/audio_output_resampler.cc:318-403 | the object, replacing its dispatcher object on the way, does what the machine's open says |
| `ResamplerImpl.AudioOutputResampler.Reinitialize` | audio/audio_output_resampler.cc:287-302 | drops the dispatcher only when no proxy is open, with no converters left |
| `ResamplerImpl.AudioOutputResampler.StartStream` | audio/audio_output_resampler.cc:405-431 | the converter is not in use before, and ends started iff the dispatcher started a stream |
| `ResamplerImpl.AudioOutputResampler.StopStreamInternal` | audio/audio_output_resampler.cc:467-488 | stops stream then converter, and closes the idle streams if an error was seen, also one raised while stopping |
| `ResamplerImpl.AudioOutputResampler.CloseStream` | audio/audio_output_resampler.cc:448-465 | forgets the converter, which is not started, and arms the timer exactly when nothing is open on fallback parameters |
| `ResamplerImpl.AudioOutputResampler.Destroy` | audio/audio_output_resampler.cc:279-285 | the loop stops every started converter in any order before the dispatcher goes |
| `ResamplerImpl.AudioOutputResampler.Run` | audio/audio_output_proxy.cc:24-93 | over any legal run the objects go through exactly the states of the machine |
| `ProxyCalls.CallsDetermine` | audio/audio_output_proxy.cc:24-93 | in every run of the stack the calls made on a proxy, with their outcomes, determine its state and volume, whatever other proxies, timers and devices do |
| `ProxyCalls.DisciplineMeans` | audio/audio_output_controller.cc:470-497 | the discipline says: Open first and once, Close last and once, Start and Stop strictly alternating from Start, none left running at Close |
| `ProxyCalls.DisciplineAllowed` | audio/audio_output_proxy.cc:24-86 | a call that keeps to the discipline passes the proxy's DCHECK |
| `ProxyCalls.DisciplinedCallEnabled` | audio/audio_output_proxy.cc:24-86 | after any run of the stack, the next disciplined call on a proxy is legal there, whatever all other clients did |
| `ProxyCalls.VolumeReachesDevice` | audio/audio_output_dispatcher_impl.cc:72-121 | the volume last set through a proxy is that of the physical stream playing for it |
| `ProxyCalls.StepOnProxy` | audio/audio_output_proxy.cc:24-93 | a step of the stack changes a proxy only by the call it makes on it |
| `OutputController.AudioOutputProxy.Start` | audio/audio_output_proxy.cc:37-51 | demands the DCHECK and that no Start() is outstanding; ends playing, or in a start error that the callback hears of |
| `OutputController.AudioOutputProxy.Stop` | audio/audio_output_proxy.cc:53-61 | demands an outstanding Start(); a proxy that failed to start keeps its error state |
| `OutputController.AudioOutputProxy.Close` | audio/audio_output_proxy.cc:76-93 | demands the DCHECK, an earlier Open(), no outstanding Start() and no earlier Close() |
| `OutputController.AudioOutputController.DoCreate` | audio/audio_output_controller.cc:222-271 | ends Created on a stream never used before, listening, at the requested volume, or in Error with the error reported; nothing happens once closed |
| `OutputController.AudioOutputController.DoPlay` | audio/audio_output_controller.cc:273-297 | from Created or Paused only; asks for the first packet, starts the stream and defers the error of a failing start |
| `OutputController.AudioOutputController.StopStream` | audio/audio_output_controller.cc:299-316 | stops a running stream once and leaves any other state alone |
| `OutputController.AudioOutputController.DoPause` | audio/audio_output_controller.cc:318-335 | Playing becomes Paused, and the reader and handler hear of it exactly in Paused |
| `OutputController.AudioOutputController.DoClose` | audio/audio_output_controller.cc:337-348 | ends Closed with no stream, no diversion and no listener, and every stream ever taken opened once, started and stopped in turn, and closed once |
| `OutputController.AudioOutputController.DoSetVolume` | audio/audio_output_controller.cc:350-366 | the current stream and every later one carry the new volume |
| `OutputController.AudioOutputController.OnError` | audio/audio_output_controller.cc:459-468 | defers one report under the current generation |
| `OutputController.AudioOutputController.DoReportError` | audio/audio_output_controller.cc:368-377 | a deferred error is reported iff the stream that raised it is still the current one |
| `OutputController.AudioOutputController.DoStopCloseAndClearStream` | audio/audio_output_controller.cc:470-497 | the listener is dropped for a stream that is not diverted and was not registered otherwise; the stream ends finished, and errors raised before or during the stop can no longer be reported |
| `OutputController.AudioOutputController.OnDeviceChange` | audio/audio_output_controller.cc:499-548 | Playing to Playing, Created and Paused to Created, on a new stream with a listener, or to Error |
| `OutputController.AudioOutputController.DoStartDiverting` | audio/audio_output_controller.cc:577-586 | the given stream becomes current without a listener, playing iff the old one was, or is closed and the controller errs |
| `OutputController.AudioOutputController.DoStopDiverting` | audio/audio_output_controller.cc:588-596 | afterwards nothing is diverted to, and playback is restored iff it was on |
| `OutputController.AudioOutputController.DoStartOrStopDivertingInternal` | audio/audio_output_controller.cc:598-629 | takes the stream to divert to iff it is new, else one from the manager, and restores playback |
| `OutputController.AudioOutputController.Run` | audio/audio_output_controller.cc:222-377 | over any tasks with any outcomes the controller invariant holds, the current stream has the last volume requested, and Closed is final with all streams finished |
| `HangMonitor.AudioManagerHelper.OnSuspend` | audio/audio_manager.cc:105-109 | switches detection off, keeping both chains single |
| `HangMonitor.AudioManagerHelper.OnResume` | audio/audio_manager.cc:111-126 | switches detection on with exactly one live tick instance |
| `HangMonitor.AudioManagerHelper.ResumeRelocks` | audio/audio_manager.cc:128-136 | after the unlocked gap exactly one status check is live |
| `HangMonitor.AudioManagerHelper.RecordAudioThreadStatus` | audio/audio_manager.cc:140-180 | with detection on it records exactly one failed or passed check, failed iff the audio thread was last heard of more than a period ago; becoming hung takes three failed checks with nothing between them and more than three periods since the last tick; recovering takes three passed checks since the reported failure; a check fails only if the next tick is overdue by more than four fifths of a period, less the time it took to post it |
| `HangMonitor.AudioManagerHelper.UpdateLastAudioThreadTimeTick` | audio/audio_manager.cc:183-204 | records the tick, clears the failures, goes on exactly while detection is on, keeps both chains single, and its DCHECK holds |
| `HangMonitor.AudioManagerHelper.Run` | audio/audio_manager.cc:60-213 | under every interleaving at most one instance of each task is live and chains are neither duplicated nor lost; the status follows from the log alone: None until the first passed check or hang, at least Hung iff three checks in a row ever failed, Recovered iff three in a row passed after that; recorded statuses strictly increase |
| `HangMonitor.FailsAreLast` | audio/audio_manager.cc:153-160 | counted failures are the last events of the log, uninterrupted |
| `HangMonitor.PassesAreAfter` | audio/audio_manager.cc:162-170 | counted passes all come after any failure, suspend or resume |
| `WavRecorder.WriteWavHeader` | audio/audio_debug_file_writer.cc:93-134 | fills exactly 44 bytes, in which a reader of the format finds the sample rate, the channel count iff it fits 16 bits, the block alignment and byte rate iff they fit, the data size min(2·samples, 2^32−37) iff the 64-bit count does not wrap below that, and a RIFF size 36 more |
| `WavRecorder.HeaderDescribes` | audio/audio_debug_file_writer.cc:99-117 | the same of the header as a value |
| `WavRecorder.CharBufferWriter.Write` | audio/audio_debug_file_writer.cc:58-67 | appends within the capacity, earlier bytes unchanged |
| `WavRecorder.HeaderParses` | audio/audio_debug_file_writer.cc:121-133 | every field lies at the offset the format gives it |
| `WavRecorder.EmptyStereoHeader` | audio/audio_debug_file_writer.cc:119-133 | the 44 bytes for an empty stereo recording at 44100 Hz, one by one |
| `WavRecorder.SampleBytes` | audio/audio_debug_file_writer.cc:220-236 | a sample is two bytes of two's complement, low byte first |
| `WavRecorder.PayloadExact` | audio/audio_debug_file_writer.cc:99-110 | the data size is min(2·samples, 2^32−37) iff the 64-bit product does not wrap below the limit |
| `WavRecorder.PayloadWraps` | audio/audio_debug_file_writer.cc:102-110 | a sample count for which it wraps |
| `WavRecorder.RiffSizeExact` | audio/audio_debug_file_writer.cc:116-117 | the RIFF size is 36 more than the data size although the sum may wrap |
| `WavRecorder.ChannelsFit` | audio/audio_debug_file_writer.cc:127-128 | the channel count survives iff it fits 16 bits; the rate always does |
| `WavRecorder.DecodePrefix` | audio/audio_debug_file_writer.cc:220-236 | decoding a prefix of the encoded samples gives that prefix of the samples |
| `WavRecorder.AudioFileWriter.StartRecording` | audio/audio_debug_file_writer.cc:252-259 | the file starts with the header of an empty recording, the cursor behind it, the rest as it was |
| `WavRecorder.AudioFileWriter.WriteHeader` | audio/audio_debug_file_writer.cc:239-250 | replaces the first 44 bytes only and moves the cursor behind them |
| `WavRecorder.AudioFileWriter.Write` | audio/audio_debug_file_writer.cc:212-237 | appends the samples to the recorded ones; an invalid file is left alone |
| `WavRecorder.AudioFileWriter.Destroy` | audio/audio_debug_file_writer.cc:206-210 | the file is header, all samples in order, and what lay beyond; it reads back as the same parameters and samples, clipped to the format's limit |
| `WavRecorder.Record` | audio/audio_debug_file_writer.cc:206-259 | a whole recording of any writes reads back as their concatenation, under a header that describes it |
| `WavRecorder.ReadBack` | audio/audio_debug_file_writer.cc:93-134 | a file of that shape reads back with data size min(2·samples, 2^32−37), RIFF size 36 more, and the samples up to it |

## Left out

- Real sockets, shared-memory mapping, threads, task runners and locks: they are message sequences, arrays and steps; a locked region is one step.
- `MapSharedMemory()` and the size computations of the shared regions: both ends are taken to use the same number of segments, at least one and fewer than 2^32, as the client sends and uses one constant.
- Logging, tracing, UMA histograms, `CheckTimeSinceLastWrite()`, `got_data_callback_` and `DCHECK_GE(now_time, capture_time)`.
- Writing the four parameters of a segment counts as one access, since no reader looks at an unannounced segment; a received batch of acknowledgements is taken one by one.
- The counters of type `size_t` in the capture writer and playout reader are unbounded; only the 32-bit ids and indices wrap.
- CaptureWriter.SyncWriter.Destroy: the percentages are exact quotients; how the histogram rounds them to integers is not modelled.
- PlayoutInvariant.MissCounting: the percentage is the integer quotient; floating-point rounding is not modelled.
- `frames_skipped += n` is one access, and `Render()` overwrites the whole bus, its result named by its arguments.
- `AudioConverter`, `AudioBus`, sample conversion and resampling, power monitoring and silence detection: buffers are opaque values, recorded samples arrive interleaved.
- `OnMoreDataConverter::OnError()` passing the error on to its source callback: the stack remembers the error, and the controller's errors are tasks of their own.
- `OnMoreData()` of the controller and of the converter: data flow through the playout handshake is modelled on its own.
- IPC lifecycles of `AudioOutputDevice` and `AudioInputDevice`, mojo interfaces and authorization.
- `AliveChecker` and `PowerObserverHelper`: a one-timer version of the hang monitor.
- Duplication sinks, stream interceptors, device descriptions, group ids, debug-recording sessions, beep, sine, file and null sources and sinks: easy members.
- `SetVolume()` on a proxy before it is opened: a successful open is a precondition.
- Streams and proxies are never identified by a reused address: a name stands for one object for ever.
- Event handlers that call back into the controller from a notification: notifications are recorded in order instead.
- When timers fire: an armed timer may fire at any later step.
- `AudioManagerBase` refusing linear streams for a non-default device, and the choice of platform factory by format: the outcome of making a stream is a parameter.
- DispatcherImpl.AudioOutputDispatcherImpl.Destroy: stops playing streams in an arbitrary order and removes each from the map as it goes, where the source leaves the map to be destroyed with the object.
- HangMonitor.AudioManagerHelper.Run: `StartHangTimer()` is one step, that is, power notifications arrive after it returns.
- Failing file operations: `base::File` writes and seeks succeed, and a file that could not be opened is a null file.
