/**
 * The sink side of the synchronizer: the message kinds of `MediaMuxer.Type`,
 * the two frame kinds, and the native RTMP muxer reduced to what the
 * synchronizer observes of it (the result of each write).
 */
module MediaMuxer {

  /** A signed byte of a Kotlin `ByteArray` payload. */
  newtype Byte = x: int | -128 <= x < 128

  /** The messages `handleMessage` dispatches on (MediaMuxer.Type). */
  datatype MessageType = SendAudio | SendVideo | StopStreaming

  /** Which producer a frame came from, and so which queue holds it. */
  datatype Kind = Audio | Video

  /** One call of the muxer's `writeAudio` / `writeVideo`, with the timestamp it was given. */
  datatype Write = Write(kind: Kind, data: seq<Byte>, length: int, timestamp: int)

  /**
   * The muxer's answer to a write (negative means failure). The muxer is
   * foreign code: its answers are an input of every operation that writes.
   */
  type Sink = Write -> int

  /** The message by which a frame of kind `k` is submitted. */
  function MessageOf(k: Kind): (m: MessageType)
    ensures m != StopStreaming
    ensures (m == SendAudio) <==> (k == Audio)
  {
    match k
    case Audio => SendAudio
    case Video => SendVideo
  }
}
