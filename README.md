# RTMPStreamer frame synchronizer in Dafny

This project models the frame synchronizer of `RTMPStreamer` in the Android
live-video broadcaster SDK. It takes audio and video frames from two encoders
and merges them into one stream for the RTMP muxer. The timestamps of that
stream strictly increase.

- `media_muxer.dfy` (module `MediaMuxer`) holds the `MediaMuxer.Type` messages
  and the two frame kinds. It models one muxer write as a `Write` record. A
  `Sink` is the muxer's answer to each write, where a negative answer is a
  failure.
- `stream_frame.dfy` (module `StreamFrames`) holds the queued frame
  (`StreamFrame`) and the orderings on queues. `PrefixAtMost` is the number of
  head frames whose timestamps are at most a horizon.
- `frame_sync.dfy` (module `FrameSync`) models the synchronizer as functions
  on its state: admission, the drain of one queue, the emit / tie-break / drop
  rule, the drain pass, the terminal flush, and `open`, `close`, `stop`. The
  lemmas state what these keep. `Inv` says the counter equals submissions
  minus emissions, and the session's writes strictly increase and never exceed
  the last sent timestamp. `Ordered` says each queue is sorted and at most its
  admission watermark. `Drains` relates a state to one reached by drain steps.
- `frame_sync.dfy` (module `FrameSyncRuns`) holds two concrete runs: the
  lone-frame scenario, and frames left over from an earlier session.
- `rtmp_streamer.dfy` (module `RtmpStreaming`) holds the class `RtmpStreamer`.
  Its fields are the Kotlin fields. The two frame lists are `seq<Frame>`
  fields that its methods reassign. The write log, the submission counter and
  the emission counter are ghost fields, and `initialize` resets all three.
  Every method is proved to compute the matching `FrameSync` function of the
  state it starts from. Every public method keeps `Valid()` (that is, `Inv`).
  Those that admit, send or stop (`writeAudio`, `writeVideo`, `handleMessage`,
  `stop`) also keep the session order. `open` keeps the order only when
  nothing was left queued, because it resets the watermarks but not the
  queues. `LoneFrameBuffering` uses the class the way a caller would.

The muxer is foreign code, so its results are inputs. `Open` takes the result
of the muxer's `open`. Every writing operation takes a `Sink` function that
gives the result of each write. Within one drain pass the written timestamps
strictly increase, so a function of the write can express any sequence of
results.

`RtmpStreamer` behaves as follows, which a reader of its interface might not expect:

- `open` resets the counters and watermarks but does not clear the queues.
  `FrameSync.OpenSpec` states this. `FrameSyncRuns.LeftoverFramesSurviveStop`
  shows a frame at 500 left from an earlier session. It blocks a new frame at
  0, so `stop` writes nothing and both frames stay queued.
- `frameCount` goes up on every `writeAudio`/`writeVideo` call, even for a
  rejected frame. It goes down only when a frame is emitted, never when a stale
  frame is dropped.
- A drain pass runs after every submission, even a rejected one.
- After `initialize`, the last audio and video timestamps are 0, not -1.

## Model

| member | source | states |
|---|---|---|
| `MediaMuxer.MessageOf` | liveVideoBroadcasterSDK/src/main/kotlin/io/antmedia/android/broadcaster/network/RTMPStreamer.kt:57-71 | audio frames travel as SEND_AUDIO and video frames as SEND_VIDEO; neither is STOP_STREAMING |
| `StreamFrames.PrefixAtMost` | liveVideoBroadcasterSDK/src/main/kotlin/io/antmedia/android/broadcaster/network/RTMPStreamer.kt:181-187 | the longest head prefix whose timestamps are at most the horizon: every frame in it is at most the horizon, and the next frame (if any) is above it |
| `FrameSync.InitializeSpec` | liveVideoBroadcasterSDK/src/main/kotlin/io/antmedia/android/broadcaster/network/RTMPStreamer.kt:73-81 | `initialize` establishes the invariant, and the queue order too when nothing is left queued |
| `FrameSync.OpenSpec` | liveVideoBroadcasterSDK/src/main/kotlin/io/antmedia/android/broadcaster/network/RTMPStreamer.kt:30-37 | connected iff the muxer's open result is positive; counters and watermarks reset (frameCount 0, last audio/video 0, received and last sent -1); queues unchanged; order holds if nothing was left queued and fails if a leftover frame has a timestamp of 0 or more |
| `FrameSync.Close` | liveVideoBroadcasterSDK/src/main/kotlin/io/antmedia/android/broadcaster/network/RTMPStreamer.kt:39-43 | afterwards the streamer is not connected |
| `FrameSync.AdmitSpec` | liveVideoBroadcasterSDK/src/main/kotlin/io/antmedia/android/broadcaster/network/RTMPStreamer.kt:133-139 | a frame joins the tail of its kind's queue iff its length is positive and its timestamp is at least that kind's watermark, which then becomes its timestamp; a rejected frame changes nothing; the other kind is untouched (lines 148-154 are the video copy) |
| `FrameSync.AdmitKeepsOrder` | liveVideoBroadcasterSDK/src/main/kotlin/io/antmedia/android/broadcaster/network/RTMPStreamer.kt:133-135 | admission keeps each queue sorted and at most its watermark, and keeps the invariant |
| `FrameSync.RejectedStillDrains` | liveVideoBroadcasterSDK/src/main/kotlin/io/antmedia/android/broadcaster/network/RTMPStreamer.kt:133-139 | a rejected frame still triggers the drain pass and is still counted by frameCount |
| `FrameSync.EmitTimestamp` | liveVideoBroadcasterSDK/src/main/kotlin/io/antmedia/android/broadcaster/network/RTMPStreamer.kt:191-194 | the outgoing timestamp is strictly above the last sent one: its own, or one more on a tie |
| `FrameSync.Emit` | liveVideoBroadcasterSDK/src/main/kotlin/io/antmedia/android/broadcaster/network/RTMPStreamer.kt:191-213 | a stale frame is dropped with nothing changed; any other raises the last sent timestamp strictly, to its own timestamp or one more on a tie; sets that kind's last timestamp; decrements frameCount; is written iff connected; a failed write disconnects; queues and watermarks untouched |
| `FrameSync.EmitDrains` | liveVideoBroadcasterSDK/src/main/kotlin/io/antmedia/android/broadcaster/network/RTMPStreamer.kt:196-211 | one emission keeps the invariant (strictly increasing writes, counter bookkeeping) and never regains the connection |
| `FrameSync.PopDrains` | liveVideoBroadcasterSDK/src/main/kotlin/io/antmedia/android/broadcaster/network/RTMPStreamer.kt:213 | removing the head keeps the queue order and the invariant |
| `FrameSync.DrainRemovesPrefix` | liveVideoBroadcasterSDK/src/main/kotlin/io/antmedia/android/broadcaster/network/RTMPStreamer.kt:180-215 | a drain removes exactly the longest prefix at most the horizon; the frames after it and the other queue are untouched |
| `FrameSync.DrainDrains` | liveVideoBroadcasterSDK/src/main/kotlin/io/antmedia/android/broadcaster/network/RTMPStreamer.kt:218-252 | a drain only takes frames off the head, keeps both invariants, only appends to the write log and only while connected, never lowers the last sent timestamp, never reconnects |
| `FrameSync.DrainAllBounded` | liveVideoBroadcasterSDK/src/main/kotlin/io/antmedia/android/broadcaster/network/RTMPStreamer.kt:93-99 | a drain whose horizon bounds the whole queue empties it and leaves the other queue alone |
| `FrameSync.SendFramesDrains` | liveVideoBroadcasterSDK/src/main/kotlin/io/antmedia/android/broadcaster/network/RTMPStreamer.kt:169-177 | a drain pass is made of drain steps, with everything `Drains` implies |
| `FrameSync.SendFramesIdle` | liveVideoBroadcasterSDK/src/main/kotlin/io/antmedia/android/broadcaster/network/RTMPStreamer.kt:170-176 | with one queue empty a drain pass changes nothing |
| `FrameSync.PassProgress` | liveVideoBroadcasterSDK/src/main/kotlin/io/antmedia/android/broadcaster/network/RTMPStreamer.kt:86-91 | with both queues non-empty a drain pass removes at least one frame, so the flush loop terminates on the measure audio size + video size |
| `FrameSync.FlushLeavesOne` | liveVideoBroadcasterSDK/src/main/kotlin/io/antmedia/android/broadcaster/network/RTMPStreamer.kt:86-91 | the flush loop ends with at most one queue non-empty, by drain steps only |
| `FrameSync.FinishFramesEmpties` | liveVideoBroadcasterSDK/src/main/kotlin/io/antmedia/android/broadcaster/network/RTMPStreamer.kt:83-100 | `finishFrames` is made of drain steps, and in a session (order holds) it empties both queues |
| `FrameSync.SubmitKeeps` | liveVideoBroadcasterSDK/src/main/kotlin/io/antmedia/android/broadcaster/network/RTMPStreamer.kt:57-71 | a submission counts one more call, only appends to the write log, and keeps the invariant and the queue order |
| `FrameSync.HandleMessageKeeps` | liveVideoBroadcasterSDK/src/main/kotlin/io/antmedia/android/broadcaster/network/RTMPStreamer.kt:118-161 | every message only appends to the write log and keeps both the invariant and the session order |
| `FrameSync.StopFlushes` | liveVideoBroadcasterSDK/src/main/kotlin/io/antmedia/android/broadcaster/network/RTMPStreamer.kt:156-159 | after `stop` the streamer is disconnected, the invariant holds, and in a session both queues are empty |
| `FrameSync.DisconnectedWritesNothing` | liveVideoBroadcasterSDK/src/main/kotlin/io/antmedia/android/broadcaster/network/RTMPStreamer.kt:196-211 | while disconnected a drain pass writes nothing and stays disconnected, yet frameCount still drops by the frames it emits |
| `FrameSyncRuns.LoneFrameBuffering` | liveVideoBroadcasterSDK/src/main/kotlin/io/antmedia/android/broadcaster/network/RTMPStreamer.kt:126-159 | video@100 stays queued alone; audio@100 is written at 100 and video still waits; `stop` writes video at 101, empties both queues, closes, frameCount 0 |
| `FrameSyncRuns.LeftoverFramesSurviveStop` | liveVideoBroadcasterSDK/src/main/kotlin/io/antmedia/android/broadcaster/network/RTMPStreamer.kt:73-81 | a frame left over across `open` blocks a newer, smaller one, and `stop` then writes nothing and leaves both queued |
| `RtmpStreaming.RtmpStreamer.constructor` | liveVideoBroadcasterSDK/src/main/kotlin/io/antmedia/android/broadcaster/network/RTMPStreamer.kt:13-28 | a new streamer has empty lists, is disconnected, frameCount 0, last sent -1, last audio and last video 0, last received audio and video -1, an empty write log, nothing submitted or emitted, with invariant and order |
| `RtmpStreaming.RtmpStreamer.Initialize` | liveVideoBroadcasterSDK/src/main/kotlin/io/antmedia/android/broadcaster/network/RTMPStreamer.kt:73-81 | the fields become `FrameSync.Initialize` of the old ones |
| `RtmpStreaming.RtmpStreamer.Open` | liveVideoBroadcasterSDK/src/main/kotlin/io/antmedia/android/broadcaster/network/RTMPStreamer.kt:30-37 | returns true iff the open result is positive, which is the new connection state; lists kept; new state is `FrameSync.Open` of the old |
| `RtmpStreaming.RtmpStreamer.Close` | liveVideoBroadcasterSDK/src/main/kotlin/io/antmedia/android/broadcaster/network/RTMPStreamer.kt:39-43 | disconnected; nothing else changes; invariant and order kept |
| `RtmpStreaming.RtmpStreamer.IsConnected` | liveVideoBroadcasterSDK/src/main/kotlin/io/antmedia/android/broadcaster/network/RTMPStreamer.kt:45-47 | returns the connection state |
| `RtmpStreaming.RtmpStreamer.GetLastVideoFrameTimeStamp` | liveVideoBroadcasterSDK/src/main/kotlin/io/antmedia/android/broadcaster/network/RTMPStreamer.kt:49-51 | returns the last emitted video timestamp |
| `RtmpStreaming.RtmpStreamer.GetLastAudioFrameTimeStamp` | liveVideoBroadcasterSDK/src/main/kotlin/io/antmedia/android/broadcaster/network/RTMPStreamer.kt:53-55 | returns the last emitted audio timestamp |
| `RtmpStreaming.RtmpStreamer.GetFrameCountInQueue` | liveVideoBroadcasterSDK/src/main/kotlin/io/antmedia/android/broadcaster/network/RTMPStreamer.kt:106-110 | returns frameCount, which is the number of calls minus emissions since the last `initialize` |
| `RtmpStreaming.RtmpStreamer.GetVideoFrameCountInQueue` | liveVideoBroadcasterSDK/src/main/kotlin/io/antmedia/android/broadcaster/network/RTMPStreamer.kt:112-116 | returns the video list's length |
| `RtmpStreaming.RtmpStreamer.WriteAudio` | liveVideoBroadcasterSDK/src/main/kotlin/io/antmedia/android/broadcaster/network/RTMPStreamer.kt:57-63 | new state is `FrameSync.Submit` of the old for an audio frame; invariant and order kept; write log only grows |
| `RtmpStreaming.RtmpStreamer.WriteVideo` | liveVideoBroadcasterSDK/src/main/kotlin/io/antmedia/android/broadcaster/network/RTMPStreamer.kt:65-71 | the same for a video frame |
| `RtmpStreaming.RtmpStreamer.Stop` | liveVideoBroadcasterSDK/src/main/kotlin/io/antmedia/android/broadcaster/network/RTMPStreamer.kt:102-104 | disconnected, invariant kept, write log only grows, and in a session both lists end empty |
| `RtmpStreaming.RtmpStreamer.HandleMessage` | liveVideoBroadcasterSDK/src/main/kotlin/io/antmedia/android/broadcaster/network/RTMPStreamer.kt:118-161 | from a valid state, the fields become `FrameSync.HandleMessage` of the old ones; the invariant holds again, the session order is kept, and the write log only grows |
| `RtmpStreaming.RtmpStreamer.FinishFrames` | liveVideoBroadcasterSDK/src/main/kotlin/io/antmedia/android/broadcaster/network/RTMPStreamer.kt:83-100 | the `do … while` loop and the leftover drain compute `FrameSync.FinishFrames`; the loop ends on the measure of `PassProgress` |
| `RtmpStreaming.RtmpStreamer.SendFrames` | liveVideoBroadcasterSDK/src/main/kotlin/io/antmedia/android/broadcaster/network/RTMPStreamer.kt:169-177 | the fields become `FrameSync.SendFrames` of the old ones |
| `RtmpStreaming.RtmpStreamer.SendQueuedFrames` | liveVideoBroadcasterSDK/src/main/kotlin/io/antmedia/android/broadcaster/network/RTMPStreamer.kt:180-215 | the iterator loop with its break computes `FrameSync.Drain` of the old state for the list of the given kind (lines 218-252 are the video copy) |
| `RtmpStreaming.RtmpStreamer.EmitFrame` | liveVideoBroadcasterSDK/src/main/kotlin/io/antmedia/android/broadcaster/network/RTMPStreamer.kt:189-212 | the fields become `FrameSync.Emit` of the old ones |
| `RtmpStreaming.LoneFrameBuffering` | liveVideoBroadcasterSDK/src/main/kotlin/io/antmedia/android/broadcaster/network/RTMPStreamer.kt:57-71 | through the class API: video queue depth 1 after video@100 and after audio@100; last audio 100; after `stop` last video 101, frameCount 0, no video queued, disconnected |

## Left out

- The native `RTMPMuxer` is not modelled. Its `open` and write results are inputs, so the URL is not passed anywhere. Its `close()` call is not recorded in the write log, because it returns nothing.
- Logging and the `BuildConfig.DEBUG` branches are left out: they have no behaviour.
- Locking (`@Synchronized`, `frameSynchronized`) is left out. Every call is modelled as atomic and sequential.
- Payload bytes are carried along but never inspected. The `data ?: return` path for a null payload cannot be reached from `writeAudio`/`writeVideo`, so it is omitted.
- 32-bit `Int` wrap-around is not modelled. Timestamps and frameCount are mathematical integers, so `frame.timestamp++` at `Int.MAX_VALUE` and the `toLong()` widening are not captured.
- `StreamFrame` is modelled as a value, not a shared object. The `frame.timestamp++` bump is a local update, because the frame is removed from its list right after. Aliasing of a `StreamFrame` from outside the lists is not modelled.
- The write log and the ghost counters cover the current session only, because `initialize` resets them. Writes from earlier sessions are not related to later ones.
- RtmpStreaming.RtmpStreamer.Stop: the lists end empty only when the session order holds (`Ordered`). Frames left over across `open` can break that order, and `FrameSyncRuns.LeftoverFramesSurviveStop` shows `stop` then leaving them queued.
