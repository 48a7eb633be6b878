# Pairion-Client, modelled and proved in Dafny

Pairion-Client is a Qt voice client. Its hard logic is a set of hand-written state machines and
stream buffers whose guarantees span several classes. This project models ten of them and proves
what they keep over every run. `dafny verify dfyconfig.toml` checks the whole project.

How the model is built:

- A component that updates fields in the program is a class with those fields. Each of its methods
  is proved to take the object from one abstract state to the next (`Abs() == Step(old(Abs()), e)`),
  where `Step` is a function on values. `Run` folds `Step` over any list of events, and the theorems
  are about every such list.
- Qt direct connections are nested calls. `executeBargeIn` calls `stop`, which emits `idle`, which runs
  `onTtsPlaybackEnded`, all before the BargeIn message goes out; the class in `Orchestrator.dfy` makes the
  same calls in the same order and is proved to have the net effect that `Session.dfy` gives it.
- An event the environment cannot deliver now (a timer that is not due, a reply that is not in flight,
  time running past a due timer) changes nothing, so no theorem needs a hypothesis that a run is legal.
- Time is a millisecond clock. Encoder, decoder, ONNX models, hash function, audio device, Mercator
  ordinate, UUIDs and socket state are parameters; a function-valued one also receives the call number,
  so that it may answer differently every time.

| file | what it covers |
|---|---|
| `Common.dfy`, `Framing.dfy`, `Bits.dfy` | options, flattening, what the latest event said, cutting a stream into pieces, masks and machine words |
| `Vad.dfy`, `VadStream.dfy` | the speech machine, its declarative account, and the 1024-byte chunking class |
| `Capture.dfy` | microphone re-framing over starts, stops and device errors, and capture feeding the VAD |
| `Session.dfy`, `Orchestrator.dfy` | the voice session as one step function, and the orchestrator class refining it |
| `SessionSafety.dfy`, `SessionTrace.dfy`, `SessionAudio.dfy`, `SessionTiming.dfy`, `SessionQueued.dfy`, `SessionUpload.dfy`, `SessionEvents.dfy`, `SessionWitness.dfy` | thresholds and timers; the outbound stream grammar; audio conservation; barge-in timing; the same with queued VAD signals; when an upload ends; the session's fields read off the events; failing runs |
| `Playback.dfy`, `PlaybackStale.dfy`, `PlaybackTail.dfy` | jitter queue, partial writes, drain timer, speaking and idle; frames that arrive after a stop; the tail of a reply |
| `Detector.dfy`, `DetectorWindows.dfy`, `DetectorStages.dfy` | the wake-word detector, its rolling windows, and its three stages against plain lists |
| `Pipeline.dfy` | microphone to wake model, pre-roll to socket, session against playback engine |
| `RingBuffer.dfy`, `Spsc.dfy` | the ring buffer as an object, and as interleaved atomic steps of two threads |
| `Downloader.dfy`, `DownloaderSafety.dfy`, `DownloaderLiveness.dfy`, `DownloaderReports.dfy` | the model downloader with repeated checks and late replies: when ready is true, when the queue progresses, what is reported and left on disk |
| `WebSocket.dfy`, `WebSocketEvents.dfy` | reconnect and backoff; the published state read off the events |
| `MemoryBrowser.dfy`, `MemoryBrowserEvents.dfy` | in-flight counting; what is shown, read off the calls and answers |
| `Tiles.dfy` | the slippy-map tile cover |

## Where a plain property fails

Each of these is stated with the exact condition under which the property holds, or with a run in which
it fails.

- Threshold discipline holds exactly when no teardown (shutdown, disconnect, pipeline error) was ever taken
  from PlayingBack, or the configured threshold is 0.7 anyway (`ThresholdIff`, `LostThresholdRun`).
- A teardown does not stop the barge-in timer. In every run a BargeIn is sent exactly at the deadline of an arming
  speechStarted that nothing has touched since (`BargeInTiming`); it also meets the plain rule, that playback went on
  and nobody stopped talking in between, exactly when no teardown lies between the two (`PlainTimingIff`,
  `StaleFilterRun`).
- Streaming means "the latest stream is unended" exactly when that stream was not torn down
  (`StreamingIffUnended`, `LostStreamEnd`).
- `onSpeechEnded` and `src/core/constants.h:58-60` speak of short sounds being filtered out during playback.
  With VAD signals delivered synchronously, a filter armed with an interval of at most m can be cancelled if and only
  if the VAD's silence window is no longer than m (`FilterIff`); with signals delivered within d ms, if and only if it
  is no longer than m + d (`DelayedFilterIff`). With the defaults, 800 and 400 ms, that takes a delay of 400 ms. One
  chunk of sound interrupts a reply, for every configuration and every interval (`CoughInterrupts`).
- An upload stays open exactly until a teardown, a speechEnded, a due timeout, or a reply frame that arrives while
  playback is silent (`UploadStaysOpenIff`). The last is what a frame still in flight at a barge-in does
  (`LateReplyEndsUpload`).
- `handleStreamEnd` is documented to call `stop()`. It does what `stop` does exactly when the reason is not normal, or
  when there is no sink and nothing queued or accepted (`StreamEndIsStopIff`). The model follows the code.
- A recording is cut into frames from its own first byte exactly when the bytes read since the latest stop, before it,
  are whole frames: a device error stops the capture and keeps what is left over (`CleanStartIff`,
  `ErrorShiftsFrames`).
- The tail left at the normal end of a reply can be played exactly when no frame since the last clear was empty
  (`TailPlaysIff`).
- Frames of an interrupted reply that arrive after the stop are held, and reach the sink ahead of the whole next reply,
  exactly when the first of them is not empty (`StaleBytesIff`).
- A queue can be drained by some device if and only if it holds no empty frame (`DrainsIff`).
- `allModelsReady` is sound for every disk and every run if and only if no two manifest entries share a hash
  (`ReadyIff`).
- While checks are made only with no reply in flight and replies are right, a missing model is always on its way
  (`QuietRunProgresses`). A check can be followed by right replies only and still strand the queue exactly when models
  are missing and a reply is in flight that is not for the only missing one (`CheckStallsIff`, `StaleReplyStalls`).
  With such checks and any replies, the queue is stranded exactly when a reply since the last check was not a right one
  (`StrandedIff`).
- The session id is consistent with the connection status exactly when the socket is never reopened while a
  session is in place (`SessionIff`). A second `connectToServer` does that, and so does a reconnect timer that
  `connectToServer` left running (`ReconnectKeepsSessionId`, `OvertakenTimerReopens`).
- The pending counter equals the outstanding requests exactly when `refresh` is never called with requests
  outstanding, because `refresh` sets the counter to 2 (`CounterIff`, `LoadingEndsEarly`).
- Replies are not matched with the current selection: the shown turns can come to belong to another episode exactly
  when the selection changed while the turns of a different one were awaited (`TurnsIff`, `StaleTurns`).
- Overlays match the tiles exactly when the item has a positive size, because `latLonToScreen` does not use the
  stand-in size (`CornerIff`). A centre on the equator or the Greenwich meridian, and the documented zoom level 0,
  are taken for absent parameters (`CentreIff`, `ZoomIff`).
- `size`, called by the producer or the consumer, is the length of the queue exactly on an up-to-date load of the other
  side's index (`QueriesAreExact`). For a third thread with up-to-date loads it is the length at the first load exactly
  when the pops completed between the two loads are a multiple of the capacity (`ObserverIff`, `ObserverMiscounts`).

## Model

| member | source | states |
|---|---|---|
| Orchestrator.AudioSessionOrchestrator.Drive | src/pipeline/audio_session_orchestrator.cpp:21-79 | any list of events handled by a new orchestrator object ends in the state the session's run function gives |
| Orchestrator.AudioSessionOrchestrator.constructor | src/pipeline/audio_session_orchestrator.cpp:21-30 | a new orchestrator is Idle with no timers, and has saved the VAD's threshold |
| Orchestrator.AudioSessionOrchestrator.Handle | src/pipeline/audio_session_orchestrator.cpp:32-78 | one event, re-entrant slots included, has exactly the session's step effect |
| Orchestrator.AudioSessionOrchestrator.ExecuteBargeIn | src/pipeline/audio_session_orchestrator.cpp:286-332 | net effect of a barge-in: threshold restored, BargeIn then StreamStart then pre-roll sent, Streaming with a fresh deadline, although the nested stop passed through AwaitingWake |
| Orchestrator.AudioSessionOrchestrator.PlaybackStop | src/audio/pairion_audio_playback.cpp:101-114 | stopping playback runs the end-of-TTS slot exactly when it was speaking |
| Orchestrator.AudioSessionOrchestrator.PlaybackHandlePcmFrame | src/audio/pairion_audio_playback.cpp:121-127 | the first frame of a burst runs the start-of-TTS slot, then the silence timer restarts |
| Orchestrator.AudioSessionOrchestrator.PlaybackSilenceElapsed | src/audio/pairion_audio_playback.cpp:27-32 | falling silent runs the end-of-TTS slot exactly when it was speaking |
| Orchestrator.AudioSessionOrchestrator.VadRunInference | src/vad/silero_vad.cpp:78-106 | one inference moves the speech machine and runs the slot of its signal before returning |
| Orchestrator.AudioSessionOrchestrator.OnWakeWordDetected | src/pipeline/audio_session_orchestrator.cpp:103-155 | opens a stream exactly in AwaitingWake with a connected socket |
| Orchestrator.AudioSessionOrchestrator.SendPreRoll | src/pipeline/audio_session_orchestrator.cpp:135-146 | the offset loop sends the encodings of exactly the whole 640-byte frames, in order |
| Orchestrator.AudioSessionOrchestrator.OnVadSpeechStarted | src/pipeline/audio_session_orchestrator.cpp:157-164 | starts the filter timer only in PlayingBack |
| Orchestrator.AudioSessionOrchestrator.OnSpeechEnded | src/pipeline/audio_session_orchestrator.cpp:166-176 | closes the stream in Streaming, cancels the filter in PlayingBack |
| Orchestrator.AudioSessionOrchestrator.EndStream | src/pipeline/audio_session_orchestrator.cpp:196-219 | sends the closing pair for the active id, stops the timer and listens again |
| Orchestrator.AudioSessionOrchestrator.OnTtsPlaybackStarted | src/pipeline/audio_session_orchestrator.cpp:232-264 | all four branches: closes an open stream, raises the threshold and clears the VAD, or ignores |
| Orchestrator.AudioSessionOrchestrator.OnTtsPlaybackEnded | src/pipeline/audio_session_orchestrator.cpp:266-276 | restores the saved threshold and listens again, only from PlayingBack |
| Orchestrator.AudioSessionOrchestrator.OnStreamingTimeout | src/pipeline/audio_session_orchestrator.cpp:187-193 | ends a stream with reason timeout, only in Streaming |
| Orchestrator.AudioSessionOrchestrator.OnBargeInTimerExpired | src/pipeline/audio_session_orchestrator.cpp:278-284 | a barge-in only in PlayingBack |
| Orchestrator.AudioSessionOrchestrator.OnOpusFrameEncoded | src/pipeline/audio_session_orchestrator.cpp:178-184 | sends a live frame under the active id exactly in Streaming |
| Orchestrator.AudioSessionOrchestrator.OnWsDisconnected | src/pipeline/audio_session_orchestrator.cpp:359-366 | drops to Idle, touching neither the threshold nor the filter timer |
| Orchestrator.AudioSessionOrchestrator.OnPipelineError | src/pipeline/audio_session_orchestrator.cpp:382-388 | likewise for a pipeline error |
| Orchestrator.AudioSessionOrchestrator.Shutdown | src/pipeline/audio_session_orchestrator.cpp:97-101 | likewise for shutdown, which also keeps the stream id |
| Orchestrator.AudioSessionOrchestrator.StartListening | src/pipeline/audio_session_orchestrator.cpp:89-95 | leaves Idle for AwaitingWake and does nothing elsewhere |
| SessionSafety.RunSane | src/pipeline/audio_session_orchestrator.cpp:187-219 | in every run, teardowns included: the streaming timer is active exactly in Streaming, no timer is overdue, PlayingBack implies playback is speaking |
| SessionSafety.StreamingBounded | src/pipeline/audio_session_orchestrator.cpp:148-149 | no uninterrupted stay in Streaming lasts longer than 30000 ms |
| SessionSafety.ThresholdIff | src/pipeline/audio_session_orchestrator.cpp:258-271 | saved threshold is the configured one and the VAD runs at 0.7 exactly in PlayingBack, if and only if no teardown was taken from PlayingBack or the two values coincide |
| SessionSafety.RunThreshold | src/pipeline/audio_session_orchestrator.cpp:97-101 | one teardown from PlayingBack leaves the VAD at 0.7 for the rest of every run |
| SessionTrace.GrammarHolds | src/pipeline/audio_session_orchestrator.cpp:178-219 | over every run with fresh ids: starts directly follow WakeWordDetected or BargeIn, SpeechEnded and its StreamEnd are adjacent and share an id, ends are unique and name the latest start, audio lies strictly inside its stream |
| SessionTrace.StreamingIffUnended | src/pipeline/audio_session_orchestrator.cpp:232-248 | the state is Streaming exactly when the latest stream is unended, if and only if that stream was not torn down |
| SessionTrace.RunTrace | src/pipeline/audio_session_orchestrator.cpp:103-155 | the inductive form of the two: grammar, used ids, open stream and abandoned streams |
| SessionTrace.StepEffect | src/pipeline/audio_session_orchestrator.cpp:103-332 | every step opens a stream, closes the active one, sends one frame of it, or sends nothing |
| SessionAudio.AudioConserved | src/pipeline/audio_session_orchestrator.cpp:178-184 | payloads under one id are the encoded pre-roll and one contiguous slice of live encoder output; slices of successive streams are disjoint and in order; the open stream's slice reaches the present |
| SessionTiming.BargeInTiming | src/pipeline/audio_session_orchestrator.cpp:157-176 | in every run, teardowns included: a BargeIn is sent if and only if the timer event comes in PlayingBack exactly one interval after a speechStarted received in PlayingBack, with no restart, speechEnded or TTS end in PlayingBack and no earlier timeout between |
| SessionTiming.PlainTimingIff | src/pipeline/audio_session_orchestrator.cpp:359-388 | a BargeIn meets the plain rule (playing back throughout, no restart, no speechEnded, no TTS end) if and only if no teardown lies between it and the event that armed it |
| SessionTiming.TimerWasArmed | src/pipeline/audio_session_orchestrator.cpp:157-164 | in every run a running filter timer was armed by a speechStarted received in PlayingBack, untouched since, and has that event's deadline |
| SessionTiming.ArmedRuns | src/pipeline/audio_session_orchestrator.cpp:278-284 | conversely, in every run an armed and untouched filter is running with that deadline |
| SessionTiming.CancelNeedsShortSilence | src/vad/silero_vad.cpp:88-105 | in every synchronous run, teardowns included, a speechEnded that cancels a running filter comes from a silence window no longer than the interval in force when it was armed |
| SessionTiming.CancelIsDead | src/vad/silero_vad.cpp:88-105 | no speechEnded of such a run cancels a filter armed with a shorter interval than the silence window |
| SessionTiming.FilterIff | src/pipeline/audio_session_orchestrator.cpp:166-176 | for every m: some synchronous run cancels a filter armed with an interval of at most m if and only if the silence window is at most m |
| SessionTiming.CoughInterrupts | src/pipeline/audio_session_orchestrator.cpp:157-164 | for every configuration and interval, one chunk of sound followed by silence sends a BargeIn |
| SessionQueued.DelayedCancelBound | src/pipeline/audio_session_orchestrator.cpp:166-176 | when signals wait in a queue for at most d ms, a cancelled filter means a silence window of at most its interval plus d |
| SessionQueued.DelayedFilterIff | src/pipeline/audio_session_orchestrator.cpp:166-176 | for every m and d: some such run cancels a filter armed with an interval of at most m if and only if the silence window is at most m + d |
| SessionUpload.LeavesStreaming | src/pipeline/audio_session_orchestrator.cpp:187-248 | exactly when a Streaming session leaves Streaming: teardown, speechEnded, due timeout, or a reply frame at silent playback |
| SessionUpload.ClosingPairIff | src/pipeline/audio_session_orchestrator.cpp:196-248 | exactly when a step sends a closing pair, and its reason |
| SessionUpload.UploadStaysOpenIff | src/pipeline/audio_session_orchestrator.cpp:103-248 | over every run with fresh ids, an upload opened at event k is still open before event n if and only if none of these occurs between |
| SessionUpload.OpenOnTheWire | src/pipeline/audio_session_orchestrator.cpp:196-219 | an uninterrupted upload is the latest start on the wire and nothing has closed it |
| SessionEvents.BargeInNames | src/pipeline/audio_session_orchestrator.cpp:286-332 | in every run a BargeIn names the latest inbound stream announced before it, or the empty id without one |
| SessionEvents.InboundIs | src/pipeline/audio_session_orchestrator.cpp:343-349 | in every run the stored inbound id is that of the latest announcement |
| SessionEvents.IntervalIs | src/pipeline/audio_session_orchestrator.cpp:85-87 | in every run the barge-in interval is the one last set, 400 ms at first |
| SessionEvents.UpIff | src/pipeline/audio_session_orchestrator.cpp:89-101 | in every run the session is out of Idle if and only if it was started or reconnected and not torn down since |
| SessionEvents.SpeakingIff | src/audio/pairion_audio_playback.cpp:121-127 | in every run playback is speaking if and only if a reply frame came and since the latest one no end of the reply, no barge-in and no timeout 500 ms after it |
| SessionEvents.PlayingBackIff | src/pipeline/audio_session_orchestrator.cpp:232-276 | in every run the session is playing back if and only if a reply began while it was up, has been audible since, and nothing tore the session down |
| SessionEvents.OpensIff | src/pipeline/audio_session_orchestrator.cpp:103-155 | in every run an event opens a stream if and only if it is a barge-in, or a wake word on a connected socket while up, not uploading and not playing back; the wake word is announced with its own score |
| SessionEvents.UploadDeadline | src/pipeline/audio_session_orchestrator.cpp:148-149 | in every run the streaming timeout comes due 30000 ms after the upload was opened, and no earlier |
| SessionEvents.EncodedIs | src/pipeline/audio_session_orchestrator.cpp:135-146 | in every run the pre-roll encoder has been called once per whole frame of every stream opened |
| SessionEvents.SignalsSinceReset | src/pipeline/audio_session_orchestrator.cpp:151-264 | in every run a chunk signals what the declarative account says of the chunks since the latest stream opened, reply began or reply ended |
| SessionEvents.ResetExists | src/pipeline/audio_session_orchestrator.cpp:151-152 | there always is such a starting point |
| SessionWitness.LostThresholdRun | src/pipeline/audio_session_orchestrator.cpp:359-366 | a disconnect during a reply leaves the VAD at 0.7 while waiting for the wake word |
| SessionWitness.StaleFilterRun | src/pipeline/audio_session_orchestrator.cpp:382-388 | a pipeline error during a reply leaves a filter timer that interrupts the next reply |
| SessionWitness.LostStreamEnd | src/pipeline/audio_session_orchestrator.cpp:97-101 | shutdown from Streaming leaves the stream unended |
| SessionWitness.LateReplyEndsUpload | src/pipeline/audio_session_orchestrator.cpp:334-341 | a reply frame after a barge-in ends the new upload; the instance of UploadStaysOpenIff that a frame in flight gives |
| SessionWitness.DeadBranchSavesRaisedThreshold | src/pipeline/audio_session_orchestrator.cpp:252-263 | in every run the second-burst branch would lose the normal threshold if it ran, and it never runs: a PCM frame in PlayingBack only restarts the silence timer |
| Vad.SignalsAreDeclarative | src/vad/silero_vad.cpp:78-106 | the machine against a specification with no machine state: speechEnded at chunk j exactly when j is the first chunk at least silenceEndMs into an unbroken silence that followed speech; speechStarted exactly when every earlier speech chunk has been ended |
| Vad.SignalsAlternate | src/vad/silero_vad.cpp:79-106 | between resets the signals alternate, starting with speechStarted |
| VadStream.ProcessSplit | src/vad/silero_vad.cpp:27-42 | feeding a stream in two calls or in one leaves the same detector |
| VadStream.ProcessAllFlattens | src/vad/silero_vad.cpp:27-42 | feeding any list of frames is feeding their concatenation |
| VadStream.RunChunksFollow | src/vad/silero_vad.cpp:60-107 | from a reset on, state and signals are those of the declarative account, under threshold changes and model state |
| VadStream.StreamFollows | src/vad/silero_vad.cpp:27-106 | from a reset, however the stream is cut: whole chunks are judged in order with the recurrent state the chunks before left, the signals are the declarative ones, and the rest is kept |
| VadStream.ChunksAreHeard | src/vad/silero_vad.cpp:48-76 | the recurrent state after any chunks is the last one the model returned, and each chunk is judged with it |
| VadStream.SileroVad.ProcessPcmFrame | src/vad/silero_vad.cpp:27-42 | the accumulator loop runs exactly the whole chunks and keeps the rest |
| VadStream.SileroVad.RunInference | src/vad/silero_vad.cpp:60-107 | one inference: recurrent state kept when absent, empty probability read as 0, transition and signal |
| VadStream.SileroVad.SetThreshold | src/vad/silero_vad.cpp:51-54 | changes the threshold and nothing else |
| VadStream.SileroVad.Reset | src/vad/silero_vad.cpp:44-49 | clears state, residue and recurrent state, and keeps the threshold |
| Capture.PairionAudioCapture.OnAudioDataReady | src/audio/pairion_audio_capture.cpp:111-125 | a read is appended and re-framed; an empty one does nothing |
| Capture.PairionAudioCapture.ProcessAccumulator | src/audio/pairion_audio_capture.cpp:143-149 | the loop emits exactly the whole 640-byte frames and keeps the rest |
| Capture.PairionAudioCapture.Stop | src/audio/pairion_audio_capture.cpp:88-109 | stopping drops the residue |
| Capture.PairionAudioCapture.Start | src/audio/pairion_audio_capture.cpp:36-86 | starting keeps the residue |
| Capture.DeliveriesReframe | src/audio/pairion_audio_capture.cpp:111-149 | emitted frames depend only on the bytes, not on how reads split them |
| Capture.FramingIndependence | src/audio/pairion_audio_capture.cpp:111-149 | after n bytes the VAD has run exactly floor(640*floor(n/640)/1024) chunks, chunk k being bytes [1024k, 1024k+1024) of the microphone, residues below 640 and 1024, nothing lost |
| Capture.CutSinceStop | src/audio/pairion_audio_capture.cpp:88-149 | over every run of starts, stops, reads and device errors: what was read since the latest stop is cut up as one stream |
| Capture.CleanStartIff | src/audio/pairion_audio_capture.cpp:88-140 | a recording is cut from its own first byte, whatever it brings, if and only if the bytes read since the latest stop before it are whole frames |
| Capture.ErrorShiftsFrames | src/audio/pairion_audio_capture.cpp:128-140 | after a device error with one byte left over, the first frame of the next recording starts with that byte |
| Capture.PairionAudioCapture.OnAudioSourceError | src/audio/pairion_audio_capture.cpp:128-140 | a device error clears the running flag and nothing else |
| Framing.FramesAppend | src/vad/silero_vad.cpp:30-41 | cutting as data arrives equals cutting the whole stream |
| Framing.FrameAt | src/audio/pairion_audio_capture.cpp:144-148 | piece k of a cut stream is its slice [nk, nk+n) |
| Framing.FramesOfFlatten | src/pipeline/audio_session_orchestrator.cpp:318-320 | cutting a concatenation of whole frames gives those frames back |
| Playback.PcmConserved | src/audio/pairion_audio_playback.cpp:121-142 | in every run with full, partial and refused writes: bytes accepted followed by the flattened queue are the bytes enqueued since the last clear |
| Playback.SignalsAlternate | src/audio/pairion_audio_playback.cpp:101-127 | speaking and idle alternate, starting with speaking |
| Playback.StreamEndIsStopIff | src/audio/pairion_audio_playback.cpp:144-169 | in every run, the end of a stream does what stop does exactly when its reason is not normal, or there is no sink and nothing queued or accepted |
| PlaybackStale.LateFramesWait | src/audio/pairion_audio_playback.cpp:101-142 | in every run, from a stop until the next preparation the sink is closed and the queue holds exactly the frames since the last clear |
| PlaybackStale.HeldBytesFirst | src/audio/pairion_audio_playback.cpp:83-142 | on every device and until a clear, the sink gets a prefix of the held bytes followed by the new ones |
| PlaybackStale.StaleBytesIff | src/audio/pairion_audio_playback.cpp:83-142 | in every run, held bytes can reach the sink if and only if frames were held and the first of them is not empty |
| Playback.DrainTerminates | src/audio/pairion_audio_playback.cpp:40-54 | with non-empty frames and a byte per tick, the drain timer empties the queue within its byte count and stops |
| Playback.EmptyFrameBlocks | src/audio/pairion_audio_playback.cpp:44-45 | an empty frame is never dequeued, on any device |
| Playback.DrainsIff | src/audio/pairion_audio_playback.cpp:40-54 | some device drains an open queue if and only if no frame in it is empty |
| Playback.PrepareWarms | src/audio/pairion_audio_playback.cpp:83-99 | in every run preparing opens a closed sink if one is to be had, makes one write of its own and touches nothing queued or accepted |
| PlaybackTail.PlaysPromptly | src/audio/pairion_audio_playback.cpp:128-142 | in every run, after a frame on an open sink: all that came since the last clear was accepted, or the last write was short |
| PlaybackTail.TailIsPlayed | src/audio/pairion_audio_playback.cpp:162-168 | in every run: after a normal end on an open sink, with no empty frame held and a byte taken per tick, as many ticks as bytes left play everything enqueued, and the timer stops |
| PlaybackTail.TailPlaysIff | src/audio/pairion_audio_playback.cpp:40-54 | in every run the tail left at a normal end can be played by some device if and only if no frame since the last clear was empty |
| PlaybackTail.RunHolds | src/audio/pairion_audio_playback.cpp:101-127 | in every run the bytes enqueued are those of the frames since the last clear, and the queue holds an empty frame if and only if one of them was empty |
| Playback.PairionAudioPlayback.WriteHeads | src/audio/pairion_audio_playback.cpp:128-141 | the write loop terminates and has the effect of the recursive flush |
| Playback.PairionAudioPlayback.HandlePcmFrame | src/audio/pairion_audio_playback.cpp:121-142 | enqueue, speak, restart the silence timer, flush |
| Playback.PairionAudioPlayback.HandleStreamEnd | src/audio/pairion_audio_playback.cpp:144-169 | a normal end drains, any other discards queue and device |
| Playback.PairionAudioPlayback.StopPlayback | src/audio/pairion_audio_playback.cpp:101-114 | clears everything, then emits idle if it was speaking |
| Playback.PairionAudioPlayback.PreparePlayback | src/audio/pairion_audio_playback.cpp:83-99 | reopens a closed sink and writes the warm-up silence, queue and flags unchanged |
| Playback.PairionAudioPlayback.OnSilenceTimeout | src/audio/pairion_audio_playback.cpp:27-32 | emits idle exactly when speaking |
| Playback.PairionAudioPlayback.OnDrainTimeout | src/audio/pairion_audio_playback.cpp:40-54 | one tick of the drain timer |
| DetectorWindows.WindowsAgree | src/wake/open_wakeword_detector.cpp:44-173 | in every run, any frame sizes and warm-ups: every embedding input is the last 76 rows and every classifier input the last 16 features of the untrimmed history, all buffers are its suffixes, detections keep the suppression gap |
| DetectorWindows.EveryChunkAnalysed | src/wake/open_wakeword_detector.cpp:62-88 | for frames of any size the short-buffer guard is never taken: a frame that completes a chunk logs the last 1760 samples of the stream |
| DetectorWindows.MelInputs | src/wake/open_wakeword_detector.cpp:54-88 | from any chunk boundary, the k-th mel input that follows is samples [b+1280k, b+1280k+1760) |
| DetectorWindows.MelInputsFromStart | src/wake/open_wakeword_detector.cpp:29-88 | from construction, warmed up or not, the k-th mel input is samples [1280k, 1280k+1760) of 480 zeros followed by all samples, despite the trim to 32000 |
| DetectorWindows.StreamIs | src/wake/open_wakeword_detector.cpp:44-60 | the histories are what was there followed by all that was fed |
| DetectorWindows.PreRollIsLastFrames | src/wake/open_wakeword_detector.cpp:45-49 | with 640-byte frames, warmed up or not, the pre-roll is exactly the last min(10, n) frames, with no partial frame |
| DetectorWindows.Boots | src/main.cpp:174-174 | a newly built detector and one after its queued warm-up are both among the start states of the from-start theorems |
| DetectorWindows.WarmupPrimes | src/wake/open_wakeword_detector.cpp:32-42 | 27 chunks; if each mel call yields at least 8 rows and each embedding call a feature, they leave 18 features and a full mel buffer |
| DetectorWindows.PrimedReachesClassifier | src/wake/open_wakeword_detector.cpp:131-173 | once primed, every completed chunk reaches the classifier, and it stays primed |
| DetectorWindows.WarmedUpClassifies | src/wake/open_wakeword_detector.cpp:32-75 | after a warm-up and n 640-byte frames the classifier has run exactly n / 4 times more |
| DetectorStages.DetectorIs | src/wake/open_wakeword_detector.cpp:77-216 | in every run: the rows are the scaled last eight of every mel answer, the features every non-empty embedding answer, each model was called exactly when there was enough, and the detections are exactly the scores at or above the threshold with none less than 500 ms before, each with its score and the last 6400 bytes |
| DetectorStages.ClassifierSees | src/wake/open_wakeword_detector.cpp:177-187 | in every run value j of row i of a classifier input is value j of the i-th of the 16 latest features, or 0 past its end |
| DetectorStages.CallsAreStamped | src/wake/open_wakeword_detector.cpp:44-66 | the calls an event makes are dated with it, after the bytes it brought |
| DetectorStages.NewRowsAre | src/wake/open_wakeword_detector.cpp:112-129 | the new rows are the last eight whole rows, value j of row f being data[32f + j] / 10 + 2 |
| DetectorStages.DecodeReads | src/wake/open_wakeword_detector.cpp:55-60 | little-endian 16-bit samples are read back, and an odd last byte is dropped |
| Detector.OpenWakewordDetector.WarmUp | src/wake/open_wakeword_detector.cpp:32-42 | the warm-up loop |
| Detector.OpenWakewordDetector.ProcessPcmFrame | src/wake/open_wakeword_detector.cpp:44-75 | one frame: pre-roll, samples, processing when due, trim |
| Detector.OpenWakewordDetector.ProcessAccumulatedAudio | src/wake/open_wakeword_detector.cpp:77-173 | the three stages, each giving up where the code does |
| Detector.OpenWakewordDetector.PushMelRows | src/wake/open_wakeword_detector.cpp:112-134 | append of the last eight rows and the pop loop keep the last 200 rows |
| Detector.OpenWakewordDetector.RunEmbedding | src/wake/open_wakeword_detector.cpp:136-172 | the embedding input is the last 76 rows; an empty output stops the chunk |
| Detector.OpenWakewordDetector.PushFeature | src/wake/open_wakeword_detector.cpp:159-165 | append and the pop loop keep the last 120 features |
| Detector.OpenWakewordDetector.Classify | src/wake/open_wakeword_detector.cpp:175-216 | classifier input, threshold and suppression |
| Pipeline.MicToMel | src/main.cpp:116-123 | from raw microphone deliveries of any sizes, to a detector warmed up or not: the k-th mel input is samples [1280k, 1280k+1760) of 480 zeros followed by the microphone's samples |
| Pipeline.PreRollReachesWire | src/pipeline/audio_session_orchestrator.cpp:309-321 | a wake word or a barge-in sends, under its id, exactly the encodings of the last min(10, n) microphone frames, whether the detector was warmed up or not |
| Pipeline.PlaybackAgrees | src/audio/pairion_audio_playback.cpp:83-169 | over every joint run from construction, drain ticks anywhere and any sink availability, the session's speaking flag and silence timer are the playback engine's |
| Spsc.EveryInterleaving | src/audio/ring_buffer.h:41-65 | for every capacity 2^k, interleaving and stale load: pops are a prefix of pushes, at most capacity - 1 held, the slot written is never the slot read |
| Spsc.RefinesBoundedFifo | src/audio/ring_buffer.h:41-65 | every atomic step is a stutter, an append to a queue that is not full, or the removal of the head that is returned |
| Spsc.FailedPushIsHonest | src/audio/ring_buffer.h:43-46 | a push gives up if and only if the queue, with the pops it has seen, is full |
| Spsc.FailedPopIsHonest | src/audio/ring_buffer.h:58-61 | a pop gives up if and only if every push it has seen is popped |
| Spsc.QueriesAreExact | src/audio/ring_buffer.h:70-90 | from the producer or the consumer, size, isEmpty and isFull count the queue with what that side has seen, and size is the queue's length if and only if its load is up to date |
| Spsc.QueriesCount | src/audio/ring_buffer.h:70-90 | the masked queries on wrapped indices are the difference of the running counts |
| Spsc.ObserverIff | src/audio/ring_buffer.h:86-90 | for every capacity and interleaving, a third thread's size is the queue's length at its first load if and only if the pops completed between its loads are a multiple of the capacity |
| Spsc.ObserverMiscounts | src/audio/ring_buffer.h:86-90 | for every capacity from 2 on, it can read capacity - 1 from a queue that never held more than one |
| Spsc.RunKeeps | src/audio/ring_buffer.h:92-96 | the inductive invariant over every interleaving |
| Bits.MaskedDifference | src/audio/ring_buffer.h:86-90 | (w - r) & mask through unsigned wrap is the circular distance |
| Bits.MaskIsMod | src/audio/ring_buffer.h:93-93 | masking with 2^k - 1 is the remainder modulo 2^k |
| Bits.PowerOfTwoCheck | src/audio/ring_buffer.h:32-33 | the static assertion accepts exactly the powers of two |
| RingBuffer.RingBuffer.Push | src/audio/ring_buffer.h:41-50 | appends exactly when fewer than capacity - 1 are held, else changes nothing |
| RingBuffer.RingBuffer.Pop | src/audio/ring_buffer.h:57-65 | removes and returns the oldest exactly when there is one |
| RingBuffer.RingBuffer.Size | src/audio/ring_buffer.h:86-90 | the number of queued elements |
| RingBuffer.RingBuffer.IsFull | src/audio/ring_buffer.h:78-81 | true exactly at capacity - 1 elements |
| RingBuffer.RingBuffer.IsEmpty | src/audio/ring_buffer.h:70-73 | true exactly when nothing is queued |
| Downloader.ModelDownloader.CheckAndDownload | src/core/model_downloader.cpp:36-67 | rebuilds the queue as exactly the unverified entries and requests the first, or reports ready |
| Downloader.ModelDownloader.OnDownloadFinished | src/core/model_downloader.cpp:137-176 | a reply is applied to the head of the queue, whatever it was requested for |
| Downloader.ModelDownloader.DownloadNext | src/core/model_downloader.cpp:117-135 | requests the head, or reports ready on an empty queue |
| DownloaderSafety.ReadyMeansVerified | src/core/model_downloader.cpp:117-176 | for any interleaving of checks with late, failed or stale replies: once ready was emitted every entry is verified and stays so; a reply in flight for entry j means all entries before j are verified |
| DownloaderSafety.ReadyIff | src/core/model_downloader.cpp:137-176 | for distinct names, hashes that each belong to some file, and a server that sends the right file or a corrupted one: ready is sound from every disk in every run if and only if no two entries share a hash |
| DownloaderSafety.UnverifiedExact | src/core/model_downloader.cpp:46-55 | the queue is ascending and holds exactly the entries that do not verify |
| DownloaderSafety.FalseReady | src/core/model_downloader.cpp:144-175 | for any two equal hashes, a disk and four events that report ready with a file missing |
| DownloaderSafety.StaleReplyStalls | src/core/model_downloader.cpp:144-171 | a duplicate reply strands the queue: nothing in flight, a file missing, ready never emitted |
| DownloaderLiveness.QuietRunProgresses | src/core/model_downloader.cpp:57-67 | for every manifest, disk and run in which checks are made with nothing in flight and replies are right: exactly the head of the queue is in flight, and after a check nothing in flight means ready was emitted |
| DownloaderLiveness.QuietReplyShortens | src/core/model_downloader.cpp:148-175 | in such a run every reply shortens the queue by one |
| DownloaderLiveness.QuietRunCompletes | src/core/model_downloader.cpp:117-121 | in such a run, for distinct names, ready is sound even when hashes are shared, and nothing in flight after a check means every model is on disk |
| DownloaderLiveness.StrandedIff | src/core/model_downloader.cpp:148-175 | for distinct names, in every run with checks made with nothing in flight and any replies: after a check the queue is stranded if and only if a reply since the last check was not a right one |
| DownloaderLiveness.CheckStallsIff | src/core/model_downloader.cpp:36-67 | after every honest run, for distinct names and hashes: a check can be followed by right replies only and still strand the queue, if and only if models are missing and a reply is in flight that is not for the only missing one |
| DownloaderLiveness.RiskyCheckStalls | src/core/model_downloader.cpp:137-176 | the stall as a run: from such a state, the check and some right replies end with nothing in flight, a model missing and ready never emitted |
| DownloaderReports.ReportsAreExact | src/core/model_downloader.cpp:137-176 | for distinct names, in every run, whatever the replies: a reply makes no entry unverified; it reports the true share of verified entries if the head of the queue is now verified, and ready if the queue is empty, and otherwise that entry as failed |
| DownloaderReports.FullIff | src/core/model_downloader.cpp:174-174 | 100 percent is reported if and only if every entry is verified |
| DownloaderReports.NothingCorruptKept | src/core/model_downloader.cpp:155-171 | for every manifest and run: a download leaves no file that does not match an entry of its name, and other files are untouched |
| DownloaderReports.RunTallies | src/core/model_downloader.cpp:36-67 | in every run after a check the completed count is the number of verified entries, and the queue holds different unverified ones |
| WebSocket.DisconnectIsFinal | src/ws/pairion_websocket_client.cpp:46-55 | after disconnectFromServer nothing opens the socket until connectToServer |
| WebSocket.SessionIff | src/ws/pairion_websocket_client.cpp:88-121 | a session id implies Connected with a running heartbeat throughout a run, if and only if the socket is never reopened in a session |
| WebSocket.ReconnectKeepsSessionId | src/ws/pairion_websocket_client.cpp:39-44 | a second connectToServer leaves the session id beside the status Connecting |
| WebSocket.OvertakenTimerReopens | src/ws/pairion_websocket_client.cpp:191-193 | so does a reconnect timer that connectToServer left running |
| WebSocket.Backoff | src/ws/pairion_websocket_client.cpp:203-229 | delays since the last connection never shrink and n >= 6 of them sum to 60000 + 30000(n - 6) |
| WebSocketEvents.ReconnectIff | src/ws/pairion_websocket_client.cpp:88-100 | in every run, when a socket ends: a reconnect is scheduled, the status is Reconnecting and the timer then opens the socket, if and only if it was opened and not deliberately closed since |
| WebSocketEvents.TimerIff | src/ws/pairion_websocket_client.cpp:191-210 | in every run the reconnect timer runs if and only if a wanted socket was lost and since then the timer has not fired and nobody disconnected |
| WebSocketEvents.DelayIs | src/ws/pairion_websocket_client.cpp:212-229 | in every run the n-th loss in a row without a connection between is retried after 1, 2, 4, 8, 15 and then 30 seconds |
| WebSocketEvents.StatusIff | src/ws/pairion_websocket_client.cpp:39-121 | in every run: Disconnected while not wanted, Reconnecting while wanted and lost, Connected exactly while a session is in place |
| WebSocketEvents.SessionIdIs | src/ws/pairion_websocket_client.cpp:116-121 | while a session is in place its id is published |
| WebSocketEvents.HeartbeatIff | src/ws/pairion_websocket_client.cpp:74-92 | in every run the heartbeat runs if and only if a socket connected and neither ended nor was deliberately closed since |
| WebSocket.PairionWebSocketClient.ScheduleReconnect | src/ws/pairion_websocket_client.cpp:203-229 | schedules the delay of this attempt; the table index is in range |
| WebSocket.PairionWebSocketClient.DoDisconnectFromServer | src/ws/pairion_websocket_client.cpp:46-55 | stops both timers, closes the socket and clears the session |
| WebSocket.PairionWebSocketClient.OnConnected | src/ws/pairion_websocket_client.cpp:74-86 | resets the attempt counter and starts the heartbeat |
| WebSocket.PairionWebSocketClient.OnDisconnected | src/ws/pairion_websocket_client.cpp:88-100 | schedules a reconnect unless the disconnect was intended |
| WebSocket.PairionWebSocketClient.OnReconnectTick | src/ws/pairion_websocket_client.cpp:191-193 | a running reconnect timer opens the socket |
| WebSocket.PairionWebSocketClient.OnSessionOpened | src/ws/pairion_websocket_client.cpp:116-121 | publishes status and session id |
| MemoryBrowser.CounterIff | src/memory/memory_browser_model.cpp:87-117 | pending equals outstanding throughout a run if and only if refresh is never called with requests outstanding; then loading is shown exactly while some are |
| MemoryBrowser.RunCounter | src/memory/memory_browser_model.cpp:146-151 | in every interleaving loading is true exactly when pending is positive, and pending never exceeds the outstanding requests |
| MemoryBrowser.TurnsIff | src/memory/memory_browser_model.cpp:87-128 | in every run, empty ids included: at some point one more answer could show the turns of another episode, if and only if the selection was changed while the turns of a different one were awaited; otherwise the shown turns are the selection's |
| MemoryBrowser.StaleTurns | src/memory/memory_browser_model.cpp:41-54 | a run in which the turns of one episode end up displayed under another |
| MemoryBrowser.LoadingEndsEarly | src/memory/memory_browser_model.cpp:99-102 | two refreshes and two answers: the spinner is gone with two requests outstanding |
| MemoryBrowserEvents.ListsAreLatest | src/memory/memory_browser_model.cpp:22-76 | in every run each list shows the rows of the latest answer to a request of its own kind |
| MemoryBrowserEvents.SelectionShown | src/memory/memory_browser_model.cpp:87-128 | in every run: the selection is the latest made, the turns are the latest to come since, the error is the latest since the latest refresh |
| MemoryBrowserEvents.RequestsConserved | src/memory/memory_browser_model.cpp:87-117 | in every run what was requested is what was answered and what is outstanding |
| MemoryBrowser.MemoryBrowserModel.DoRefresh | src/memory/memory_browser_model.cpp:87-103 | clears error and selection, sets pending to 2 and requests twice |
| MemoryBrowser.MemoryBrowserModel.DoSelectEpisode | src/memory/memory_browser_model.cpp:105-117 | selects, clears the turns, adds one to pending and requests once |
| MemoryBrowser.MemoryBrowserModel.DoClearSelection | src/memory/memory_browser_model.cpp:119-128 | clears selection and turns, and leaves pending requests alone |
| MemoryBrowser.MemoryBrowserModel.OnAnswer | src/memory/memory_browser_model.cpp:22-76 | a reply or an error updates its list and decrements pending |
| Tiles.CoveredOnce | qml/Backgrounds/OsmBackground.qml:110-164 | every point of the viewport and of a 256-pixel margin lies in exactly one drawn tile if it is in the vertical band of the tile rows, and in none otherwise |
| Tiles.WindowReaches | qml/Backgrounds/OsmBackground.qml:128-135 | the tile window reaches one whole tile beyond the viewport on each side, after rounding |
| Tiles.PlaceShift | qml/Backgrounds/OsmBackground.qml:146-158 | rounding never opens or overlaps a seam: tiles sit exactly 256 pixels apart |
| Tiles.WrapIsCongruent | qml/Backgrounds/OsmBackground.qml:144-144 | each wrapped column is in [0, 2^z) and congruent to its column, with a truncating remainder |
| Tiles.SameImageIff | qml/Backgrounds/OsmBackground.qml:142-159 | two drawn tiles show the same image if and only if they are whole worlds apart |
| Tiles.CornerIff | qml/Backgrounds/OsmBackground.qml:77-95 | a coordinate at a tile corner is placed within half a pixel of the drawn corner if and only if the item has a positive size |
| Tiles.CentreIff | qml/Backgrounds/OsmBackground.qml:85-94 | the requested centre is shown in the middle if and only if neither coordinate is zero |
| Tiles.ImageIsOfPlace | qml/Backgrounds/OsmBackground.qml:142-159 | for every coordinate shown well inside a drawn tile of a sized item: the row is floor(mercator * n), the column floor((lon + 180) / 360 * n) modulo the tiles per axis, at the view's level |
| Tiles.DefaultCentre | qml/Backgrounds/OsmBackground.qml:118-122 | without parameters the map is centred on 33.814427 N, 96.582106 W |
| Tiles.UnsizedGrid | qml/Backgrounds/OsmBackground.qml:110-112 | an item without a size draws the tiles of a 2560 by 1440 one |
| Tiles.ZoomIff | qml/Backgrounds/OsmBackground.qml:114-115 | of zoom levels 0 to 19 exactly level 0 is not drawn at its own level |
| Tiles.LevelsAgree | qml/Backgrounds/OsmBackground.qml:115-144 | at every level, negative ones included, the integer column and row test are the program's, which work with 2 to the power of the level |
| Tiles.OsmBackground.RebuildTiles | qml/Backgrounds/OsmBackground.qml:110-164 | the tile list is the grid of the current view |
| Tiles.OsmBackground.BuildTiles | qml/Backgrounds/OsmBackground.qml:128-161 | the nested loops with the band check produce the rows of the grid |

## Left out

- Qt sockets, HTTP, audio devices, file system, QSettings: their answers are parameters or events.
- libopus and ONNX Runtime: functions given as parameters; a decoder that yields several or no PCM frames is any list of PCM events.
- src/protocol/binary_codec.cpp, src/protocol/envelope_codec.cpp: a sent audio message carries its stream id, of which the real frame carries a 32-bit prefix; two live ids with the same prefix are not distinguished there.
- Orchestrator.AudioSessionOrchestrator.Handle: signals that reach the orchestrator through a queue are the LateSpeechStarted and LateSpeechEnded events, deliverable at any time; a run with a queued VAD has these and no VadChunk events. SessionQueued adds the queue and its delay; the scheduling behind it is not modelled.
- Orchestrator.AudioSessionOrchestrator.constructor: does not model a null playback pointer, which the program's main never passes.
- Direct calls of the VAD's reset and setThreshold from the main thread are atomic here; the data race with its inference thread is not modelled.
- DownloaderLiveness.CheckStallsIff: is about distinct hashes that all belong to some file; entries that share a hash accept each other's replies, and QuietRunCompletes covers them for checks made with nothing in flight.
- Session: the wakeFired, streamEnded and pipelineError signals and the state names shown to QML, which no modelled component consumes.
- Spsc.EveryInterleaving: weak-memory behaviour beyond stale, monotone index loads; that slots are ordered by the release and acquire pairs is stated as what each side has seen when it touches a slot.
- Downloader.ModelDownloader.OnDownloadFinished: per-byte download progress and JSON manifest parsing; a manifest that fails to load is the empty one. A write that stores fewer bytes than received is a stored body of its own.
- DownloaderSafety.ReadyMeansVerified: files changed on disk by anyone else after verification.
- Detector: float rounding; a score is a real number, and the comparison of a float with the float-cast threshold is a comparison of reals.
- Tiles.CoveredOnce: binary floating point; positions are real numbers rounded as Math.round does. Below level 0 the one tile row is larger than the world, and the band is that row's.
- WebSocket: message parsing and the heartbeat's pings; a socket that reports an event its state does not allow.
- src/state/connection_state.cpp, src/settings/settings.cpp, src/core/device_identity.cpp, src/util/logger.cpp, src/pipeline/pipeline_health_monitor.cpp: setters, appends and a single pass over flags, whose properties can be read off their bodies.
- Capture: device selection, format fallback and a start that fails, which belong to the audio hardware.
- The remaining QML, installers and CMake: rendering and packaging.
