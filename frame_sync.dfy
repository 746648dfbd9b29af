/**
 * The synchronizer of RTMPStreamer as functions on its state: admission,
 * the drain pass, the per-frame emit/tie-break/drop rule, the terminal flush
 * and the lifecycle, with the properties they keep.
 */
module FrameSync {
  import opened MediaMuxer
  import opened StreamFrames

  /**
   * The fields of RTMPStreamer, plus three ghost-only records of the current
   * session (since the last `initialize`): the writes made to the muxer, the
   * number of frames submitted and the number emitted.
   */
  datatype State = State(
    audio: seq<Frame>,
    video: seq<Frame>,
    frameCount: int,
    lastAudio: int,
    lastVideo: int,
    lastReceivedAudio: int,
    lastReceivedVideo: int,
    lastSent: int,
    connected: bool,
    log: seq<Write>,
    submitted: nat,
    emitted: nat)
  {
    function Queue(k: Kind): seq<Frame> {
      match k
      case Audio => audio
      case Video => video
    }

    function LastReceived(k: Kind): int {
      match k
      case Audio => lastReceivedAudio
      case Video => lastReceivedVideo
    }

    function LastEmitted(k: Kind): int {
      match k
      case Audio => lastAudio
      case Video => lastVideo
    }

    function WithQueue(k: Kind, q: seq<Frame>): State {
      match k
      case Audio => this.(audio := q)
      case Video => this.(video := q)
    }

    function Size(): nat { |audio| + |video| }
  }

  function Other(k: Kind): Kind {
    match k
    case Audio => Video
    case Video => Audio
  }

  // ---------------------------------------------------------------- invariants

  /** Timestamps of the writes strictly increase. */
  ghost predicate StrictlyIncreasing(log: seq<Write>) {
    forall i, j :: 0 <= i < j < |log| ==> log[i].timestamp < log[j].timestamp
  }

  /**
   * What holds of every reachable state: the counter is submissions minus
   * emissions, and the session's writes go out with strictly increasing
   * timestamps, none above the last sent timestamp.
   */
  ghost predicate Inv(s: State) {
    && s.frameCount == s.submitted - s.emitted
    && StrictlyIncreasing(s.log)
    && (forall i :: 0 <= i < |s.log| ==> s.log[i].timestamp <= s.lastSent)
  }

  /**
   * The queue invariant of a session: each queue is sorted and bounded by that
   * kind's admission watermark. `open` breaks it when it finds frames left over.
   */
  ghost predicate Ordered(s: State) {
    && Sorted(s.audio) && AllAtMost(s.audio, s.lastReceivedAudio)
    && Sorted(s.video) && AllAtMost(s.video, s.lastReceivedVideo)
  }

  /**
   * `t` comes from `s` by drain steps only: frames leave the queue heads, the
   * admission watermarks and submissions stay, the last sent timestamp does
   * not go down, the write log only grows and only while connected, the
   * connection is never regained, and both invariants are kept.
   */
  ghost predicate Drains(s: State, t: State) {
    && IsSuffix(t.audio, s.audio) && IsSuffix(t.video, s.video)
    && t.lastReceivedAudio == s.lastReceivedAudio
    && t.lastReceivedVideo == s.lastReceivedVideo
    && t.submitted == s.submitted
    && s.lastSent <= t.lastSent
    && s.log <= t.log
    && (t.connected ==> s.connected)
    && (!s.connected ==> t.log == s.log)
    && (Inv(s) ==> Inv(t))
    && (Ordered(s) ==> Ordered(t))
  }

  // ---------------------------------------------------------------- lifecycle

  /** `initialize`: counters and watermarks reset; the queues are left as they are. */
  function Initialize(s: State): State {
    s.(frameCount := 0, lastVideo := 0, lastAudio := 0,
       lastReceivedVideo := -1, lastReceivedAudio := -1, lastSent := -1,
       connected := false, log := [], submitted := 0, emitted := 0)
  }

  /** `open`: initialize, then connected iff the muxer's open result is positive. */
  function Open(s: State, openResult: int): State {
    Initialize(s).(connected := openResult > 0)
  }

  /** `close`: drop the connection. */
  function Close(s: State): (t: State)
    ensures !t.connected
  {
    s.(connected := false)
  }

  lemma OpenSpec(s: State, openResult: int)
    ensures var t := Open(s, openResult);
      && t.connected == (openResult > 0)
      && t.audio == s.audio && t.video == s.video
      && t.frameCount == 0 && t.lastAudio == 0 && t.lastVideo == 0
      && t.lastReceivedAudio == -1 && t.lastReceivedVideo == -1 && t.lastSent == -1
      && Inv(t)
      && (s.audio == [] && s.video == [] ==> Ordered(t))
      && (s.audio != [] && s.audio[|s.audio| - 1].timestamp >= 0 ==> !Ordered(t))
      && (s.video != [] && s.video[|s.video| - 1].timestamp >= 0 ==> !Ordered(t))
  {
  }

  /** `initialize` establishes Inv, and the queue order too if nothing is left queued. */
  lemma InitializeSpec(s: State)
    ensures Inv(Initialize(s))
    ensures s.audio == [] && s.video == [] ==> Ordered(Initialize(s))
  {
  }

  // ---------------------------------------------------------------- admission

  /** The admission test of `handleMessage` for a frame of kind `k`. */
  predicate Accepts(s: State, k: Kind, length: int, timestamp: int) {
    timestamp >= s.LastReceived(k) && length > 0
  }

  /** Append the frame to its queue and raise the watermark, if it is accepted. */
  function Admit(s: State, k: Kind, data: seq<Byte>, length: int, timestamp: int): State {
    if !Accepts(s, k, length, timestamp) then s
    else
      match k
      case Audio => s.(lastReceivedAudio := timestamp, audio := s.audio + [Frame(data, length, timestamp)])
      case Video => s.(lastReceivedVideo := timestamp, video := s.video + [Frame(data, length, timestamp)])
  }

  /**
   * A frame joins the tail of its kind's queue, raising that watermark to its
   * timestamp, iff its length is positive and its timestamp is not below the
   * watermark; otherwise nothing changes. The other kind is never touched.
   */
  lemma AdmitSpec(s: State, k: Kind, data: seq<Byte>, length: int, timestamp: int)
    ensures var t := Admit(s, k, data, length, timestamp);
      && (|t.Queue(k)| == |s.Queue(k)| + 1 <==> length > 0 && timestamp >= s.LastReceived(k))
      && (length > 0 && timestamp >= s.LastReceived(k) ==>
            t.Queue(k) == s.Queue(k) + [Frame(data, length, timestamp)] && t.LastReceived(k) == timestamp)
      && (!(length > 0 && timestamp >= s.LastReceived(k)) ==> t == s)
      && t.Queue(Other(k)) == s.Queue(Other(k)) && t.LastReceived(Other(k)) == s.LastReceived(Other(k))
  {
  }

  /** Admission keeps each queue sorted and below its watermark, and keeps Inv. */
  lemma AdmitKeepsOrder(s: State, k: Kind, data: seq<Byte>, length: int, timestamp: int)
    ensures Ordered(s) ==> Ordered(Admit(s, k, data, length, timestamp))
    ensures Inv(s) ==> Inv(Admit(s, k, data, length, timestamp))
  {
  }

  // ---------------------------------------------------------------- emission

  /** The timestamp a non-stale frame goes out with: one more than `lastSent` on a tie. */
  function EmitTimestamp(lastSent: int, timestamp: int): (ts: int)
    requires timestamp >= lastSent
    ensures ts > lastSent
    ensures ts == timestamp || (timestamp == lastSent && ts == lastSent + 1)
  {
    if timestamp == lastSent then timestamp + 1 else timestamp
  }

  /** Record that frame `f` of kind `k` goes out at `ts`: watermarks advance, counter drops. */
  function Sent(s: State, k: Kind, ts: int): State {
    var u := match k
      case Audio => s.(lastAudio := ts)
      case Video => s.(lastVideo := ts);
    u.(lastSent := ts, frameCount := s.frameCount - 1, emitted := s.emitted + 1)
  }

  /**
   * The rule for one dequeued frame: a stale frame is dropped without a trace;
   * any other goes out at a timestamp strictly above the last sent one (its
   * own, or one more on a tie), is written only while connected, and a
   * negative write result closes the connection. The watermarks and the
   * counter advance whether or not a write happened.
   */
  function Emit(s: State, k: Kind, f: Frame, sink: Sink): (t: State)
    ensures t.audio == s.audio && t.video == s.video
    ensures t.lastReceivedAudio == s.lastReceivedAudio && t.lastReceivedVideo == s.lastReceivedVideo
    ensures t.submitted == s.submitted
    ensures f.timestamp < s.lastSent ==> t == s
    ensures f.timestamp >= s.lastSent ==>
      && t.lastSent > s.lastSent
      && (t.lastSent == f.timestamp || (f.timestamp == s.lastSent && t.lastSent == s.lastSent + 1))
      && t.LastEmitted(k) == t.lastSent && t.LastEmitted(Other(k)) == s.LastEmitted(Other(k))
      && t.frameCount == s.frameCount - 1 && t.emitted == s.emitted + 1
    ensures t.log == s.log || (s.connected && t.log == s.log + [Write(k, f.data, f.length, t.lastSent)])
    ensures (t.log != s.log) <==> s.connected && f.timestamp >= s.lastSent
    ensures t.connected <==> s.connected && (f.timestamp < s.lastSent || sink(t.log[|t.log| - 1]) >= 0)
  {
    if f.timestamp < s.lastSent then s
    else
      var ts := EmitTimestamp(s.lastSent, f.timestamp);
      var w := Write(k, f.data, f.length, ts);
      var u := if !s.connected then s
               else if sink(w) < 0 then Close(s.(log := s.log + [w]))
               else s.(log := s.log + [w]);
      Sent(u, k, ts)
  }

  lemma EmitDrains(s: State, k: Kind, f: Frame, sink: Sink)
    ensures Drains(s, Emit(s, k, f, sink))
  {
  }

  // ---------------------------------------------------------------- drain

  /**
   * `sendAudioFrames` / `sendVideoFrames`: scan queue `k` from the head, taking
   * off and emitting each frame until the first one above horizon `h`.
   */
  function Drain(s: State, k: Kind, h: int, sink: Sink): State
    decreases |s.Queue(k)|
  {
    var q := s.Queue(k);
    if q == [] || q[0].timestamp > h then s
    else Drain(Emit(s, k, q[0], sink).WithQueue(k, q[1..]), k, h, sink)
  }

  /**
   * A drain takes off exactly the longest prefix of its queue whose timestamps
   * are at most the horizon; the frames after it and the other queue are untouched.
   */
  lemma {:induction false} DrainRemovesPrefix(s: State, k: Kind, h: int, sink: Sink)
    ensures Drain(s, k, h, sink).Queue(k) == s.Queue(k)[PrefixAtMost(s.Queue(k), h)..]
    ensures Drain(s, k, h, sink).Queue(Other(k)) == s.Queue(Other(k))
    decreases |s.Queue(k)|
  {
    var q := s.Queue(k);
    if q == [] || q[0].timestamp > h {
    } else {
      var u := Emit(s, k, q[0], sink).WithQueue(k, q[1..]);
      assert u.Queue(k) == q[1..];
      assert u.Queue(Other(k)) == s.Queue(Other(k)) by { match k case Audio => case Video => }
      DrainRemovesPrefix(u, k, h, sink);
      assert q[1..][PrefixAtMost(q[1..], h)..] == q[PrefixAtMost(q, h)..];
    }
  }

  /** Removing the head of a queue is a drain step. */
  lemma PopDrains(s: State, k: Kind)
    requires s.Queue(k) != []
    ensures Drains(s, s.WithQueue(k, s.Queue(k)[1..]))
  {
    var t := s.WithQueue(k, s.Queue(k)[1..]);
    match k
    case Audio =>
      assert t.video == s.video[|s.video| - |t.video|..];
      SuffixKeepsOrder(t.audio, s.audio, s.lastReceivedAudio);
    case Video =>
      assert t.audio == s.audio[|s.audio| - |t.audio|..];
      SuffixKeepsOrder(t.video, s.video, s.lastReceivedVideo);
  }

  lemma DrainsTransitive(r: State, s: State, t: State)
    requires Drains(r, s) && Drains(s, t)
    ensures Drains(r, t)
  {
  }

  lemma DrainsReflexive(s: State)
    ensures Drains(s, s)
  {
  }

  lemma {:induction false} DrainDrains(s: State, k: Kind, h: int, sink: Sink)
    ensures Drains(s, Drain(s, k, h, sink))
    decreases |s.Queue(k)|
  {
    var q := s.Queue(k);
    if q == [] || q[0].timestamp > h {
      DrainsReflexive(s);
    } else {
      var e := Emit(s, k, q[0], sink);
      var u := e.WithQueue(k, q[1..]);
      EmitDrains(s, k, q[0], sink);
      assert e.Queue(k) == q;
      PopDrains(e, k);
      DrainsTransitive(s, e, u);
      DrainDrains(u, k, h, sink);
      DrainsTransitive(s, u, Drain(u, k, h, sink));
    }
  }

  /** With every frame of the queue at most the horizon, a drain empties it. */
  lemma DrainAllBounded(s: State, k: Kind, h: int, sink: Sink)
    requires AllAtMost(s.Queue(k), h)
    ensures Drain(s, k, h, sink).Queue(k) == []
    ensures Drain(s, k, h, sink).Queue(Other(k)) == s.Queue(Other(k))
  {
    DrainRemovesPrefix(s, k, h, sink);
    var q := s.Queue(k);
    var n := PrefixAtMost(q, h);
  }

  // ---------------------------------------------------------------- drain pass

  /**
   * `sendFrames`: drain audio against the video head if there is video, then,
   * if audio is still queued, drain video against the audio head.
   */
  function SendFrames(s: State, sink: Sink): State {
    var u := if s.video != [] then Drain(s, Audio, s.video[0].timestamp, sink) else s;
    if u.audio != [] then Drain(u, Video, u.audio[0].timestamp, sink) else u
  }

  lemma SendFramesDrains(s: State, sink: Sink)
    ensures Drains(s, SendFrames(s, sink))
  {
    var u := if s.video != [] then Drain(s, Audio, s.video[0].timestamp, sink) else s;
    if s.video != [] { DrainDrains(s, Audio, s.video[0].timestamp, sink); } else { DrainsReflexive(s); }
    if u.audio != [] {
      DrainDrains(u, Video, u.audio[0].timestamp, sink);
      DrainsTransitive(s, u, SendFrames(s, sink));
    }
  }

  /** With one queue empty a drain pass changes nothing. */
  lemma SendFramesIdle(s: State, sink: Sink)
    requires s.audio == [] || s.video == []
    ensures SendFrames(s, sink) == s
  {
  }

  /**
   * With both queues non-empty a drain pass takes off at least one frame: if
   * the audio head is not above the video head it goes, otherwise the video
   * head is below the audio head and goes.
   */
  lemma PassProgress(s: State, sink: Sink)
    requires s.audio != [] && s.video != []
    ensures SendFrames(s, sink).Size() < s.Size()
  {
    var tv := s.video[0].timestamp;
    var u := Drain(s, Audio, tv, sink);
    DrainRemovesPrefix(s, Audio, tv, sink);
    if s.audio[0].timestamp <= tv {
      assert |u.audio| < |s.audio| && u.video == s.video;
      if u.audio != [] {
        DrainRemovesPrefix(u, Video, u.audio[0].timestamp, sink);
      }
    } else {
      assert u.audio == s.audio && u.video == s.video;
      DrainRemovesPrefix(u, Video, u.audio[0].timestamp, sink);
      assert PrefixAtMost(u.video, u.audio[0].timestamp) > 0;
    }
  }

  // ---------------------------------------------------------------- flush

  /** The `while` part of `finishFrames`: drain passes as long as both queues hold frames. */
  function Flush(s: State, sink: Sink): State
    decreases s.Size()
  {
    if s.audio != [] && s.video != [] then
      PassProgress(s, sink);
      Flush(SendFrames(s, sink), sink)
    else s
  }

  /** The flush loop ends with at most one queue holding frames. */
  lemma {:induction false} FlushLeavesOne(s: State, sink: Sink)
    ensures Flush(s, sink).audio == [] || Flush(s, sink).video == []
    ensures Drains(s, Flush(s, sink))
    decreases s.Size()
  {
    if s.audio != [] && s.video != [] {
      PassProgress(s, sink);
      var u := SendFrames(s, sink);
      SendFramesDrains(s, sink);
      FlushLeavesOne(u, sink);
      DrainsTransitive(s, u, Flush(u, sink));
    } else {
      DrainsReflexive(s);
    }
  }

  /** The queue left after the loop is drained against its own last timestamp. */
  function DrainLeftover(s: State, sink: Sink): State {
    if s.video != [] then Drain(s, Video, s.video[|s.video| - 1].timestamp, sink)
    else if s.audio != [] then Drain(s, Audio, s.audio[|s.audio| - 1].timestamp, sink)
    else s
  }

  /** `finishFrames`: one drain pass, repeated while both queues hold frames, then the leftover. */
  function FinishFrames(s: State, sink: Sink): State {
    DrainLeftover(Flush(SendFrames(s, sink), sink), sink)
  }

  /** Within a session the terminal flush empties both queues. */
  lemma FinishFramesEmpties(s: State, sink: Sink)
    ensures Drains(s, FinishFrames(s, sink))
    ensures Ordered(s) ==> FinishFrames(s, sink).audio == [] && FinishFrames(s, sink).video == []
  {
    var u := SendFrames(s, sink);
    SendFramesDrains(s, sink);
    var v := Flush(u, sink);
    FlushLeavesOne(u, sink);
    DrainsTransitive(s, u, v);
    var w := DrainLeftover(v, sink);
    if v.video != [] {
      DrainDrains(v, Video, v.video[|v.video| - 1].timestamp, sink);
      if Ordered(s) {
        SortedBoundedByLast(v.video);
        DrainAllBounded(v, Video, v.video[|v.video| - 1].timestamp, sink);
      }
    } else if v.audio != [] {
      DrainDrains(v, Audio, v.audio[|v.audio| - 1].timestamp, sink);
      if Ordered(s) {
        SortedBoundedByLast(v.audio);
        DrainAllBounded(v, Audio, v.audio[|v.audio| - 1].timestamp, sink);
      }
    } else {
      DrainsReflexive(v);
    }
    DrainsTransitive(s, v, w);
  }

  // ---------------------------------------------------------------- messages

  /** `handleMessage`: admit and run a drain pass, or flush and close. */
  function HandleMessage(s: State, msg: MessageType, data: seq<Byte>, length: int, timestamp: int, sink: Sink): State {
    match msg
    case SendAudio => SendFrames(Admit(s, Audio, data, length, timestamp), sink)
    case SendVideo => SendFrames(Admit(s, Video, data, length, timestamp), sink)
    case StopStreaming => Close(FinishFrames(s, sink))
  }

  /** `writeAudio` / `writeVideo`: handle the frame, then count the call. */
  function Submit(s: State, k: Kind, data: seq<Byte>, length: int, timestamp: int, sink: Sink): State {
    var t := HandleMessage(s, MessageOf(k), data, length, timestamp, sink);
    t.(frameCount := t.frameCount + 1, submitted := t.submitted + 1)
  }

  /** `stop`: the STOP_STREAMING message with the default arguments. */
  function Stop(s: State, sink: Sink): State {
    HandleMessage(s, StopStreaming, [], -1, -1, sink)
  }

  /**
   * A rejected frame leaves the state as it was except for the drain pass that
   * still runs, and the call is counted all the same.
   */
  lemma RejectedStillDrains(s: State, k: Kind, data: seq<Byte>, length: int, timestamp: int, sink: Sink)
    requires !Accepts(s, k, length, timestamp)
    ensures HandleMessage(s, MessageOf(k), data, length, timestamp, sink) == SendFrames(s, sink)
    ensures Submit(s, k, data, length, timestamp, sink).frameCount == SendFrames(s, sink).frameCount + 1
  {
  }

  /**
   * A submission keeps both invariants, counts one more call whether or not
   * the frame was accepted, and never takes frames off except by draining.
   */
  lemma SubmitKeeps(s: State, k: Kind, data: seq<Byte>, length: int, timestamp: int, sink: Sink)
    ensures var t := Submit(s, k, data, length, timestamp, sink);
      && t.submitted == s.submitted + 1
      && s.log <= t.log
      && (Inv(s) ==> Inv(t))
      && (Ordered(s) ==> Ordered(t))
  {
    var a := Admit(s, k, data, length, timestamp);
    AdmitKeepsOrder(s, k, data, length, timestamp);
    SendFramesDrains(a, sink);
  }

  /** Every message keeps both invariants and only appends to the write log. */
  lemma HandleMessageKeeps(s: State, msg: MessageType, data: seq<Byte>, length: int, timestamp: int, sink: Sink)
    ensures var t := HandleMessage(s, msg, data, length, timestamp, sink);
      && s.log <= t.log
      && (Inv(s) ==> Inv(t))
      && (Ordered(s) ==> Ordered(t))
  {
    match msg
    case SendAudio =>
      AdmitKeepsOrder(s, Audio, data, length, timestamp);
      SendFramesDrains(Admit(s, Audio, data, length, timestamp), sink);
    case SendVideo =>
      AdmitKeepsOrder(s, Video, data, length, timestamp);
      SendFramesDrains(Admit(s, Video, data, length, timestamp), sink);
    case StopStreaming =>
      StopFlushes(s, sink);
  }

  /** After `stop` within a session both queues are empty and the connection is closed. */
  lemma StopFlushes(s: State, sink: Sink)
    ensures var t := Stop(s, sink);
      && !t.connected
      && s.log <= t.log
      && (Inv(s) ==> Inv(t))
      && (Ordered(s) ==> t.audio == [] && t.video == [] && Ordered(t))
  {
    FinishFramesEmpties(s, sink);
  }

  /** Once disconnected, drain passes still consume frames but write nothing. */
  lemma DisconnectedWritesNothing(s: State, sink: Sink)
    requires !s.connected
    ensures var t := SendFrames(s, sink);
      && t.log == s.log && !t.connected
      && (Inv(s) ==> t.frameCount == s.frameCount - (t.emitted - s.emitted))
  {
    SendFramesDrains(s, sink);
  }
}

/** Concrete runs of the synchronizer. */
module FrameSyncRuns {
  import opened MediaMuxer
  import opened StreamFrames
  import opened FrameSync

  /**
   * A lone video frame waits for an audio horizon; an audio frame with the
   * same timestamp goes out first; `stop` sends the video frame bumped to 101
   * and leaves both queues empty and the connection closed.
   */
  lemma LoneFrameBuffering(s: State, dv: seq<Byte>, da: seq<Byte>, sink: Sink)
    requires s.audio == [] && s.video == []
    requires forall w :: sink(w) >= 0
    ensures var s0 := Open(s, 1);
      var s1 := Submit(s0, Video, dv, 1, 100, sink);
      var s2 := Submit(s1, Audio, da, 1, 100, sink);
      var s3 := Stop(s2, sink);
      && s0.connected
      && s1.video == [Frame(dv, 1, 100)] && s1.audio == [] && s1.log == []
      && s2.log == [Write(Audio, da, 1, 100)] && s2.audio == [] && |s2.video| == 1
      && s2.lastSent == 100 && s2.lastAudio == 100
      && s3.log == [Write(Audio, da, 1, 100), Write(Video, dv, 1, 101)]
      && s3.audio == [] && s3.video == [] && !s3.connected
      && s3.lastVideo == 101 && s3.frameCount == 0
  {
    var fv := Frame(dv, 1, 100);
    var fa := Frame(da, 1, 100);
    var s0 := Open(s, 1);
    // writeVideo(100): admitted; the audio drain finds nothing, there is no audio horizon
    var a1 := Admit(s0, Video, dv, 1, 100);
    assert a1.video == [fv] && a1.audio == [];
    assert Drain(a1, Audio, 100, sink) == a1;
    assert SendFrames(a1, sink) == a1;
    var s1 := Submit(s0, Video, dv, 1, 100, sink);
    assert s1 == a1.(frameCount := 1, submitted := 1);
    // writeAudio(100): admitted, then drained against the video head 100
    var a2 := Admit(s1, Audio, da, 1, 100);
    assert a2.audio == [fa] && a2.video == [fv];
    var e2 := Emit(a2, Audio, fa, sink);
    assert e2.log == [Write(Audio, da, 1, 100)] && e2.connected && e2.lastSent == 100;
    var d2 := e2.WithQueue(Audio, []);
    assert Drain(d2, Audio, 100, sink) == d2;
    assert Drain(a2, Audio, 100, sink) == d2;
    assert SendFrames(a2, sink) == d2;
    var s2 := Submit(s1, Audio, da, 1, 100, sink);
    assert s2 == d2.(frameCount := 1, submitted := 2);
    // stop: the pass and the loop do nothing; the video leftover goes out at 101
    assert SendFrames(s2, sink) == s2;
    assert Flush(s2, sink) == s2;
    var e3 := Emit(s2, Video, fv, sink);
    assert e3.lastSent == 101 && e3.log == s2.log + [Write(Video, dv, 1, 101)];
    var d3 := e3.WithQueue(Video, []);
    assert Drain(d3, Video, 100, sink) == d3;
    assert Drain(s2, Video, 100, sink) == d3;
    assert FinishFrames(s2, sink) == d3;
  }

  /**
   * `open` does not clear the queues: a video frame at 500 left from an earlier
   * session blocks a new frame at 0, and `stop` then writes nothing and leaves
   * both frames queued.
   */
  lemma LeftoverFramesSurviveStop(s: State, d: seq<Byte>, sink: Sink)
    requires s.audio == [] && s.video == [Frame(d, 1, 500)]
    ensures var s0 := Open(s, 1);
      var s1 := Submit(s0, Video, d, 1, 0, sink);
      var s2 := Stop(s1, sink);
      && s1.video == [Frame(d, 1, 500), Frame(d, 1, 0)]
      && s2.video == s1.video && s2.log == [] && !s2.connected
  {
    var s0 := Open(s, 1);
    var a1 := Admit(s0, Video, d, 1, 0);
    assert a1.video == [Frame(d, 1, 500), Frame(d, 1, 0)] && a1.audio == [];
    assert SendFrames(a1, sink) == a1;
    var s1 := Submit(s0, Video, d, 1, 0, sink);
    assert s1 == a1.(frameCount := 1, submitted := 1);
    assert SendFrames(s1, sink) == s1;
    assert Flush(s1, sink) == s1;
    assert Drain(s1, Video, 0, sink) == s1;
    assert FinishFrames(s1, sink) == s1;
  }
}
