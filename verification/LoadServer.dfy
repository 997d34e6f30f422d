/** The server controller's receive handler: per-stream receive buffers, one echo per
    complete frame, and nothing echoed from a chunk that turns out malformed. */
module LoadServer {
  import opened Wire
  import opened Reassembly
  import opened Transport

  datatype Echoes = Echoes(sends: seq<Send>) | Rejected(error: FrameError)

  class LoadServerConnection {
    const messageSize: nat
    var receiveBuffers: map<nat, Bytes>

    constructor (messageSize: nat)
      ensures this.messageSize == messageSize && receiveBuffers == map[]
    {
      this.messageSize := messageSize;
      receiveBuffers := map[];
    }

    /** The buffer of a stream; a stream not seen before has an empty one. */
    function Buffer(s: nat): Bytes
      reads this
    {
      if s in receiveBuffers then receiveBuffers[s] else []
    }

    method OnData(s: nat, data: Bytes) returns (result: Echoes)
      modifies this
      ensures var p := ParseAll(old(Buffer(s)) + data, messageSize);
              && receiveBuffers == old(receiveBuffers)[s := p.rest]
              && result == match p.error
                           case None => Echoes(OnStream(p.frames, s))
                           case Some(e) => Rejected(e)
    {
      hide ParseAll, TryPeekFrameSize;
      ghost var whole := Buffer(s) + data;
      receiveBuffers := receiveBuffers[s := Buffer(s) + data];
      var sends: seq<Send> := [];
      ghost var frames: seq<Bytes> := [];
      while true
        invariant s in receiveBuffers && receiveBuffers == old(receiveBuffers)[s := receiveBuffers[s]]
        invariant ParseAll(whole, messageSize) == Resume(frames, ParseAll(receiveBuffers[s], messageSize))
        invariant sends == OnStream(frames, s)
        decreases |receiveBuffers[s]|
      {
        var buffer := receiveBuffers[s];
        match TryPeekFrameSize(buffer, messageSize) {
          case Incomplete =>
            NothingMore(buffer, messageSize);
            return Echoes(sends);
          case Malformed(e) =>
            NothingMore(buffer, messageSize);
            return Rejected(e);
          case Complete(size) =>
            ResumeOne(frames, buffer, messageSize);
            sends, frames := sends + [Send(s, buffer[..size])], frames + [buffer[..size]];
            receiveBuffers := receiveBuffers[s := buffer[size..]];
        }
      }
    }
  }
}
