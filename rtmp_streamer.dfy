/**
 * RTMPStreamer as a class: the counters, watermarks and the two frame lists
 * are fields that its methods update in place. Each method is proved to
 * compute the matching function of FrameSync on the state it starts from.
 */
module RtmpStreaming {
  import opened MediaMuxer
  import opened StreamFrames
  import Sync = FrameSync
  import FrameSyncRuns

  class RtmpStreamer {
    var frameCount: int
    var lastVideoFrameTimeStamp: int
    var lastAudioFrameTimeStamp: int
    var lastReceivedVideoFrameTimeStamp: int
    var lastReceivedAudioFrameTimeStamp: int
    var lastSentFrameTimeStamp: int
    var isConnected: bool
    var audioFrameList: seq<Frame>
    var videoFrameList: seq<Frame>

    /** The writes made to the muxer in this session. */
    ghost var log: seq<Write>
    /** `writeAudio`/`writeVideo` calls in this session. */
    ghost var submitted: nat
    /** Frames emitted (written or not) in this session. */
    ghost var emitted: nat

    ghost function Model(): Sync.State
      reads this
    {
      Sync.State(audioFrameList, videoFrameList, frameCount,
                 lastAudioFrameTimeStamp, lastVideoFrameTimeStamp,
                 lastReceivedAudioFrameTimeStamp, lastReceivedVideoFrameTimeStamp,
                 lastSentFrameTimeStamp, isConnected, log, submitted, emitted)
    }

    /** The invariant every public operation keeps. */
    ghost predicate Valid()
      reads this
    {
      Sync.Inv(Model())
    }

    /** The queue order of a session (lost when `open` finds frames left over). */
    ghost predicate Ordered()
      reads this
    {
      Sync.Ordered(Model())
    }

    /** `init`: the field initialisers, then `initialize`. */
    constructor ()
      ensures Valid() && Ordered()
      ensures audioFrameList == [] && videoFrameList == [] && !isConnected
      ensures frameCount == 0 && lastSentFrameTimeStamp == -1
      ensures lastAudioFrameTimeStamp == 0 && lastVideoFrameTimeStamp == 0
      ensures lastReceivedAudioFrameTimeStamp == -1 && lastReceivedVideoFrameTimeStamp == -1
      ensures log == [] && submitted + emitted == 0
    {
      frameCount := 0;
      lastVideoFrameTimeStamp, lastAudioFrameTimeStamp := -1, -1;
      lastReceivedVideoFrameTimeStamp, lastReceivedAudioFrameTimeStamp := -1, -1;
      lastSentFrameTimeStamp := -1;
      isConnected := false;
      audioFrameList, videoFrameList := [], [];
      log, submitted, emitted := [], 0, 0;
      new;
      Initialize();
    }

    method Initialize()
      modifies this
      ensures Model() == Sync.Initialize(old(Model()))
    {
      frameCount := 0;
      lastVideoFrameTimeStamp := 0;
      lastAudioFrameTimeStamp := 0;
      lastReceivedVideoFrameTimeStamp := -1;
      lastReceivedAudioFrameTimeStamp := -1;
      lastSentFrameTimeStamp := -1;
      isConnected := false;
      log, submitted, emitted := [], 0, 0;
    }

    /** `open`: `openResult` is what the muxer's `open` returned. */
    method Open(openResult: int) returns (ok: bool)
      modifies this
      ensures Valid()
      ensures ok == isConnected == (openResult > 0)
      ensures Model() == Sync.Open(old(Model()), openResult)
      ensures audioFrameList == old(audioFrameList) && videoFrameList == old(videoFrameList)
      ensures old(audioFrameList) == [] && old(videoFrameList) == [] ==> Ordered()
    {
      ghost var pre := Model();
      Initialize();
      if openResult > 0 {
        isConnected := true;
      }
      ok := isConnected;
      assert Model() == Sync.Open(pre, openResult);
      Sync.OpenSpec(pre, openResult);
    }

    method Close()
      modifies this
      ensures !isConnected
      ensures Model() == Sync.Close(old(Model()))
      ensures old(Valid()) ==> Valid()
      ensures old(Ordered()) ==> Ordered()
    {
      isConnected := false;
    }

    method IsConnected() returns (c: bool)
      ensures c == isConnected
    {
      c := isConnected;
    }

    method GetLastVideoFrameTimeStamp() returns (ts: int)
      ensures ts == lastVideoFrameTimeStamp
    {
      ts := lastVideoFrameTimeStamp;
    }

    method GetLastAudioFrameTimeStamp() returns (ts: int)
      ensures ts == lastAudioFrameTimeStamp
    {
      ts := lastAudioFrameTimeStamp;
    }

    /** The frames submitted and not yet emitted in this session (see Sync.Inv). */
    method GetFrameCountInQueue() returns (n: int)
      requires Valid()
      ensures n == frameCount == submitted - emitted
    {
      n := frameCount;
    }

    method GetVideoFrameCountInQueue() returns (n: int)
      ensures n == |videoFrameList|
    {
      n := |videoFrameList|;
    }

    method WriteAudio(data: seq<Byte>, length: int, timestamp: int, sink: Sink)
      requires Valid()
      modifies this
      ensures Valid()
      ensures Model() == Sync.Submit(old(Model()), Audio, data, length, timestamp, sink)
      ensures old(Ordered()) ==> Ordered()
      ensures old(log) <= log
    {
      HandleMessage(SendAudio, data, length, timestamp, sink);
      frameCount := frameCount + 1;
      submitted := submitted + 1;
      Sync.SubmitKeeps(old(Model()), Audio, data, length, timestamp, sink);
    }

    method WriteVideo(data: seq<Byte>, length: int, timestamp: int, sink: Sink)
      requires Valid()
      modifies this
      ensures Valid()
      ensures Model() == Sync.Submit(old(Model()), Video, data, length, timestamp, sink)
      ensures old(Ordered()) ==> Ordered()
      ensures old(log) <= log
    {
      HandleMessage(SendVideo, data, length, timestamp, sink);
      frameCount := frameCount + 1;
      submitted := submitted + 1;
      Sync.SubmitKeeps(old(Model()), Video, data, length, timestamp, sink);
    }

    /** `stop`: within a session it leaves both queues empty and the connection closed. */
    method Stop(sink: Sink)
      requires Valid()
      modifies this
      ensures Valid() && !isConnected
      ensures Model() == Sync.Stop(old(Model()), sink)
      ensures old(log) <= log
      ensures old(Ordered()) ==> audioFrameList == [] && videoFrameList == [] && Ordered()
    {
      HandleMessage(StopStreaming, [], -1, -1, sink);
      Sync.StopFlushes(old(Model()), sink);
    }

    method HandleMessage(msg: MessageType, data: seq<Byte>, length: int, timestamp: int, sink: Sink)
      requires Valid()
      modifies this
      ensures Valid()
      ensures Model() == Sync.HandleMessage(old(Model()), msg, data, length, timestamp, sink)
      ensures old(Ordered()) ==> Ordered()
      ensures old(log) <= log
    {
      ghost var pre := Model();
      Sync.HandleMessageKeeps(pre, msg, data, length, timestamp, sink);
      match msg
      case SendAudio =>
        if timestamp >= lastReceivedAudioFrameTimeStamp && length > 0 {
          lastReceivedAudioFrameTimeStamp := timestamp;
          audioFrameList := audioFrameList + [Frame(data, length, timestamp)];
        }
        SendFrames(sink);
      case SendVideo =>
        if timestamp >= lastReceivedVideoFrameTimeStamp && length > 0 {
          lastReceivedVideoFrameTimeStamp := timestamp;
          videoFrameList := videoFrameList + [Frame(data, length, timestamp)];
        }
        SendFrames(sink);
      case StopStreaming =>
        FinishFrames(sink);
        Close();
    }

    /** `finishFrames`: a `do … while` of drain passes, then the leftover queue. */
    method FinishFrames(sink: Sink)
      modifies this
      ensures Model() == Sync.FinishFrames(old(Model()), sink)
    {
      SendFrames(sink);
      var videoFrameListSize := |videoFrameList|;
      var audioFrameListSize := |audioFrameList|;
      while videoFrameListSize > 0 && audioFrameListSize > 0
        invariant videoFrameListSize == |videoFrameList| && audioFrameListSize == |audioFrameList|
        invariant Sync.Flush(Model(), sink) == Sync.Flush(Sync.SendFrames(old(Model()), sink), sink)
        decreases Model().Size()
      {
        Sync.PassProgress(Model(), sink);
        SendFrames(sink);
        videoFrameListSize := |videoFrameList|;
        audioFrameListSize := |audioFrameList|;
      }
      if videoFrameListSize > 0 {
        SendQueuedFrames(Video, videoFrameList[|videoFrameList| - 1].timestamp, sink);
      } else if audioFrameListSize > 0 {
        SendQueuedFrames(Audio, audioFrameList[|audioFrameList| - 1].timestamp, sink);
      }
    }

    /** `sendFrames`: one drain pass. */
    method SendFrames(sink: Sink)
      modifies this
      ensures Model() == Sync.SendFrames(old(Model()), sink)
    {
      if |videoFrameList| > 0 {
        SendQueuedFrames(Audio, videoFrameList[0].timestamp, sink);
      }
      if |audioFrameList| > 0 {
        SendQueuedFrames(Video, audioFrameList[0].timestamp, sink);
      }
    }

    /**
     * `sendAudioFrames` (kind Audio) and `sendVideoFrames` (kind Video): walk the
     * list from its head, stop at the first frame above `horizon`, and hand each
     * frame before it to the emit rule, removing it from the list.
     */
    method SendQueuedFrames(kind: Kind, horizon: int, sink: Sink)
      modifies this
      ensures Model() == Sync.Drain(old(Model()), kind, horizon, sink)
    {
      while (if kind == Audio then audioFrameList else videoFrameList) != []
        invariant Sync.Drain(Model(), kind, horizon, sink) == Sync.Drain(old(Model()), kind, horizon, sink)
        decreases |Model().Queue(kind)|
      {
        var frame := if kind == Audio then audioFrameList[0] else videoFrameList[0];
        if frame.timestamp > horizon {
          break;
        }
        EmitFrame(kind, frame, sink);
        if kind == Audio {
          audioFrameList := audioFrameList[1..];
        } else {
          videoFrameList := videoFrameList[1..];
        }
      }
    }

    /**
     * The emit/tie-break/drop rule for a frame taken off the list of `kind`;
     * the local bump stands for `frame.timestamp++`, whose frame is removed
     * from its list right after.
     */
    method EmitFrame(kind: Kind, frame: Frame, sink: Sink)
      modifies this
      ensures Model() == Sync.Emit(old(Model()), kind, frame, sink)
    {
      ghost var pre := Model();
      var frame := frame;
      if frame.timestamp >= lastSentFrameTimeStamp {
        if frame.timestamp == lastSentFrameTimeStamp {
          frame := frame.(timestamp := frame.timestamp + 1);
        }
        var w := Write(kind, frame.data, frame.length, frame.timestamp);
        if isConnected {
          var result := sink(w);
          log := log + [w];
          if result < 0 {
            Close();
          }
        }
        ghost var u := Model();
        assert u == if !pre.connected then pre
                    else if sink(w) < 0 then Sync.Close(pre.(log := pre.log + [w]))
                    else pre.(log := pre.log + [w]);
        if kind == Audio {
          lastAudioFrameTimeStamp := frame.timestamp;
        } else {
          lastVideoFrameTimeStamp := frame.timestamp;
        }
        lastSentFrameTimeStamp := frame.timestamp;
        frameCount := frameCount - 1;
        emitted := emitted + 1;
        assert Model() == Sync.Sent(u, kind, frame.timestamp);
      }
    }
  }

  /**
   * A client of the class: a lone video frame at 100 stays queued, an audio
   * frame at 100 goes out and the video frame still waits, and `stop` sends it
   * at 101, empties both lists and closes, with a muxer that accepts every write.
   */
  method LoneFrameBuffering(dv: seq<Byte>, da: seq<Byte>, sink: Sink)
    returns (videoQueuedAfterVideo: int, videoQueuedAfterAudio: int, lastAudio: int,
             lastVideo: int, framesInQueue: int, videoQueuedAfterStop: int, connected: bool)
    requires forall w :: sink(w) >= 0
    ensures videoQueuedAfterVideo == 1 && videoQueuedAfterAudio == 1
    ensures lastAudio == 100 && lastVideo == 101
    ensures framesInQueue == 0 && videoQueuedAfterStop == 0 && !connected
  {
    var streamer := new RtmpStreamer();
    ghost var s := streamer.Model();
    var ok := streamer.Open(1);
    streamer.WriteVideo(dv, 1, 100, sink);
    videoQueuedAfterVideo := streamer.GetVideoFrameCountInQueue();
    streamer.WriteAudio(da, 1, 100, sink);
    videoQueuedAfterAudio := streamer.GetVideoFrameCountInQueue();
    lastAudio := streamer.GetLastAudioFrameTimeStamp();
    streamer.Stop(sink);
    lastVideo := streamer.GetLastVideoFrameTimeStamp();
    framesInQueue := streamer.GetFrameCountInQueue();
    videoQueuedAfterStop := streamer.GetVideoFrameCountInQueue();
    connected := streamer.IsConnected();
    FrameSyncRuns.LoneFrameBuffering(s, dv, da, sink);
  }
}
