/** One stream of the QUIC server: echoes are counted from extraction to completion, and the
    stream is shut down once the peer has finished and no echo is pending. Every locked
    region, StreamSend and callback is one event; events interleave as the transport likes. */
module QuicServerStreams {
  import opened Wire
  import opened Reassembly
  import opened Window

  /** Where the receive callback is: not running, or between its two locked regions with the
      echoes it has still to send. */
  datatype Callback = Idle | Sending(echoes: seq<Bytes>)

  /** History: `received` are all bytes of the peer, `sent` the echoes the transport has
      taken, in order; `underWay` counts those not completed yet and `lost` the echoes given
      up on after a failure. `broken` is set when parsing raises an error out of the
      callback. */
  datatype Stream = Stream(
    receiveBuffer: Bytes,
    pendingSends: nat,
    peerFinished: bool,
    shutdownStarted: bool,
    callback: Callback,
    received: Bytes,
    sent: seq<Bytes>,
    underWay: nat,
    lost: nat,
    parsed: nat,
    completed: nat,
    shutdownCalls: nat,
    broken: bool)

  datatype Event =
    | Receive(data: Bytes, fin: bool)
    | SendNext(accepted: bool)
    | FinishReceive
    | SendComplete
    | PeerSendShutdown

  const FRESH_STREAM := Stream([], 0, false, false, Idle, [], [], 0, 0, 0, 0, 0, false)

  /** What the transport may do: it delivers nothing after the peer's end, completes only
      sends it has taken, and runs one receive callback at a time. */
  predicate Possible(st: Stream, e: Event) {
    && !st.broken
    && match e
       case Receive(_, _) => st.callback.Idle? && !st.peerFinished
       case SendNext(_) => st.callback.Sending? && st.callback.echoes != []
       case FinishReceive => st.callback == Sending([])
       case SendComplete => st.underWay > 0
       case PeerSendShutdown => true
  }

  function MaybeShutdown(st: Stream): Stream {
    if st.peerFinished && st.pendingSends == 0 && !st.shutdownStarted
    then st.(shutdownStarted := true, shutdownCalls := st.shutdownCalls + 1)
    else st
  }

  function Step(st: Stream, e: Event, messageSize: nat): Stream
    requires Possible(st, e)
  {
    match e
    case Receive(data, fin) =>
      var p := ParseAll(st.receiveBuffer + data, messageSize);
      var counted := st.(receiveBuffer := p.rest,
                         received := st.received + data,
                         pendingSends := st.pendingSends + |p.frames|,
                         parsed := st.parsed + |p.frames|);
      if p.error.Some? then counted.(broken := true)
      else counted.(peerFinished := st.peerFinished || fin, callback := Sending(p.frames))
    case SendNext(accepted) =>
      if accepted
      then st.(callback := Sending(st.callback.echoes[1..]), sent := st.sent + [st.callback.echoes[0]],
          underWay := st.underWay + 1)
      else st.(callback := Idle, lost := st.lost + |st.callback.echoes|)
    case FinishReceive => MaybeShutdown(st.(callback := Idle))
    case SendComplete =>
      MaybeShutdown(st.(pendingSends := if st.pendingSends > 0 then st.pendingSends - 1 else 0,
                        underWay := st.underWay - 1,
                        completed := st.completed + 1))
    case PeerSendShutdown => MaybeShutdown(st.(peerFinished := true))
  }

  function Unsent(c: Callback): nat {
    if c.Sending? then |c.echoes| else 0
  }

  /** The pending count is exact; shutdown has happened at most once, only after the peer's
      end with nothing pending, and between callbacks it is never overdue. */
  ghost predicate Sound(st: Stream) {
    !st.broken ==>
      && st.pendingSends == Unsent(st.callback) + st.underWay + st.lost
      && st.parsed == st.completed + st.pendingSends
      && st.shutdownCalls == (if st.shutdownStarted then 1 else 0)
      && (st.shutdownStarted ==> st.peerFinished && st.pendingSends == 0)
      && (st.callback.Idle? && st.peerFinished && st.pendingSends == 0 ==> st.shutdownStarted)
  }

  function EchoesOf(c: Callback): seq<Bytes> {
    if c.Sending? then c.echoes else []
  }

  /** The echoes are the frames of everything received, in order and up to the ones still in
      hand, however the bytes arrived; a failure makes some missing, and adds none. The
      stream breaks only when what it has received is malformed. */
  ghost predicate Echoing(st: Stream, messageSize: nat) {
    var p := ParseAll(st.received, messageSize);
    && (st.broken ==> p.error.Some?)
    && (!st.broken ==>
          && p.error.None? && p.rest == st.receiveBuffer
          && st.parsed == |p.frames| && |st.sent| == st.underWay + st.completed
          && (forall i | 0 <= i < |st.sent| :: st.sent[i] in p.frames)
          && (forall i | 0 <= i < |EchoesOf(st.callback)| :: EchoesOf(st.callback)[i] in p.frames)
          && (st.lost == 0 ==> st.sent + EchoesOf(st.callback) == p.frames))
  }

  lemma StepKeepsEchoing(st: Stream, e: Event, messageSize: nat)
    requires Sound(st) && Echoing(st, messageSize) && Possible(st, e)
    ensures Echoing(Step(st, e, messageSize), messageSize)
  {
    hide ParseAll;
    match e
    case Receive(data, _) =>
      ParseAppend(st.received, data, messageSize);
      assert st.sent + [] == st.sent;
    case SendNext(_) =>
      var echoes := st.callback.echoes;
      assert st.sent + echoes == (st.sent + [echoes[0]]) + echoes[1..];
      assert EchoesOf(st.callback)[0] == echoes[0];
      assert forall i | 0 <= i < |echoes[1..]| :: echoes[1..][i] == EchoesOf(st.callback)[i + 1];
    case _ =>
  }

  lemma StepKeepsSound(st: Stream, e: Event, messageSize: nat)
    requires Sound(st) && Possible(st, e)
    ensures Sound(Step(st, e, messageSize))
  {
    hide ParseAll;
  }

  // ---------------------------------------------------------------- runs

  ghost predicate IsRun(events: seq<Event>, messageSize: nat)
    decreases |events|, 0
  {
    events == [] ||
    var earlier := events[..|events| - 1];
    IsRun(earlier, messageSize) && Possible(After(earlier, messageSize), events[|events| - 1])
  }

  ghost function After(events: seq<Event>, messageSize: nat): Stream
    requires IsRun(events, messageSize)
    decreases |events|, 1
  {
    if events == [] then FRESH_STREAM
    else Step(After(events[..|events| - 1], messageSize), events[|events| - 1], messageSize)
  }

  lemma Keeps(st: Stream, e: Event, messageSize: nat)
    requires Possible(st, e)
    ensures Sound(st) && Echoing(st, messageSize) ==>
              Sound(Step(st, e, messageSize)) && Echoing(Step(st, e, messageSize), messageSize)
  {
    hide Sound, Echoing, Step, Possible;
    if Sound(st) && Echoing(st, messageSize) {
      StepKeepsSound(st, e, messageSize);
      StepKeepsEchoing(st, e, messageSize);
    }
  }

  ghost predicate Untouched(st: Stream) {
    && st == Stream(st.received, 0, false, false, Idle, st.received, st.sent, 0, 0, 0, 0, 0, false)
    && |st.received| == 0 && |st.sent| == 0
  }

  lemma UntouchedIsSound(st: Stream)
    requires Untouched(st)
    ensures Sound(st)
  {
  }

  lemma UntouchedIsEchoing(st: Stream, messageSize: nat)
    requires Untouched(st) && ParseAll(st.received, messageSize) == Parsed([], st.received, None)
    ensures Echoing(st, messageSize)
  {
    hide ParseAll;
  }

  lemma ShortIsIncomplete(buffer: Bytes, messageSize: nat)
    requires |buffer| < HEADER_SIZE
    ensures TryPeekFrameSize(buffer, messageSize).Incomplete?
  {
  }

  lemma NothingToParse(buffer: Bytes, messageSize: nat)
    requires |buffer| == 0
    ensures ParseAll(buffer, messageSize) == Parsed([], buffer, None)
  {
    hide ParseAll, TryPeekFrameSize;
    ShortIsIncomplete(buffer, messageSize);
    NothingMore(buffer, messageSize);
  }

  lemma {:induction false} RunIsSound(events: seq<Event>, messageSize: nat)
    requires IsRun(events, messageSize)
    ensures Sound(After(events, messageSize)) && Echoing(After(events, messageSize), messageSize)
  {
    hide Step, Possible, Sound, Echoing;
    if events == [] {
      var st := After(events, messageSize);
      UntouchedIsSound(st);
      NothingToParse(st.received, messageSize);
      UntouchedIsEchoing(st, messageSize);
    } else {
      RunIsSound(events[..|events| - 1], messageSize);
      StepKeepsSound(After(events[..|events| - 1], messageSize), events[|events| - 1], messageSize);
      StepKeepsEchoing(After(events[..|events| - 1], messageSize), events[|events| - 1], messageSize);
    }
  }

  lemma PartsDelimitThemselves(frames: seq<Bytes>, parts: seq<Bytes>, size: nat)
    requires SelfDelimiting(frames, size) && forall i | 0 <= i < |parts| :: parts[i] in frames
    ensures SelfDelimiting(parts, size)
  {
    hide TryPeekFrameSize;
    forall i, tail: Bytes | 0 <= i < |parts|
      ensures TryPeekFrameSize(parts[i] + tail, size) == Complete(|parts[i]|)
    {
      var k :| 0 <= k < |frames| && frames[k] == parts[i];
    }
  }

  lemma OnlyFailuresLose(st: Stream, e: Event, messageSize: nat)
    requires Possible(st, e)
    ensures Step(st, e, messageSize).lost > 0 <==> st.lost > 0 || e == SendNext(false)
  {
    hide ParseAll;
  }

  /** Echoes are lost exactly when some StreamSend has failed. */
  lemma {:induction false} LossMeansFailure(events: seq<Event>, messageSize: nat)
    requires IsRun(events, messageSize)
    ensures After(events, messageSize).lost > 0 <==> SendNext(false) in events
  {
    hide Step, Possible;
    if events == [] {
    } else {
      var earlier, e := events[..|events| - 1], events[|events| - 1];
      LossMeansFailure(earlier, messageSize);
      OnlyFailuresLose(After(earlier, messageSize), e, messageSize);
      assert events == earlier + [e];
    }
  }

  /** The client finds the frames in what the server has sent as the server found them. */
  lemma SentDelimitsItself(events: seq<Event>, serverSize: nat, frames: seq<Bytes>, later: Bytes, clientSize: nat)
    requires IsRun(events, serverSize)
    requires SelfDelimiting(frames, serverSize) && SelfDelimiting(frames, clientSize)
    requires After(events, serverSize).received + later == Concat(frames)
    ensures var st := After(events, serverSize);
            && !st.broken && SelfDelimiting(st.sent, clientSize) && |st.sent| <= |frames|
            && (SendNext(false) !in events ==> st.sent <= frames)
  {
    hide Step, Possible, IsRun, After, ParseAll, Concat, TryPeekFrameSize, SelfDelimiting;
    var st := After(events, serverSize);
    RunIsSound(events, serverSize);
    LossMeansFailure(events, serverSize);
    ParsePrefix(frames, st.received, later, serverSize);
    PartsDelimitThemselves(frames, st.sent, clientSize);
  }

  /** From end to end: if the server has received a beginning of the client's frames, and
      the client a beginning of what the server has sent, then neither side meets a malformed
      byte and no more echoes come back than messages went out. Without a failed StreamSend
      they are the client's own frames in order. */
  lemma EchoesComeHome(events: seq<Event>, serverSize: nat, frames: seq<Bytes>, later: Bytes,
                       clientSize: nat, back: Bytes, more: Bytes)
    requires IsRun(events, serverSize)
    requires SelfDelimiting(frames, serverSize) && SelfDelimiting(frames, clientSize)
    requires After(events, serverSize).received + later == Concat(frames)
    requires back + more == Concat(After(events, serverSize).sent)
    ensures var st, got := After(events, serverSize), ParseAll(back, clientSize);
            && !st.broken && got.error.None?
            && |got.frames| <= |st.sent| <= |frames|
            && (SendNext(false) !in events ==> got.frames == frames[..|got.frames|])
  {
    hide Step, Possible, IsRun, After, ParseAll, Concat, TryPeekFrameSize, SelfDelimiting;
    SentDelimitsItself(events, serverSize, frames, later, clientSize);
    ParsePrefix(After(events, serverSize).sent, back, more, clientSize);
  }

  lemma NothingFollows(sent: seq<Bytes>, rest: Bytes, chunk: Bytes, more: Bytes)
    requires rest + (chunk + more) == Concat(sent[|sent|..])
    ensures chunk == []
  {
  }

  /** What the next chunk brings the client: no malformed byte and no more echoes than the
      window counters say are outstanding; and if none are, there is no next chunk. */
  lemma ChunkFitsTheWindow(events: seq<Event>, serverSize: nat, frames: seq<Bytes>, later: Bytes, p: Profile,
                           c: Counters, built: nat, back: Bytes, chunk: Bytes, more: Bytes)
    requires IsRun(events, serverSize)
    requires SelfDelimiting(frames, serverSize) && SelfDelimiting(frames, p.messageSize)
    requires After(events, serverSize).received + later == Concat(frames) && |frames| <= built
    requires back + chunk + more == Concat(After(events, serverSize).sent)
    requires ValidProfile(p) && Tracks(p, c, built, |ParseAll(back, p.messageSize).frames|, [])
    ensures var got := ParseAll(ParseAll(back, p.messageSize).rest + chunk, p.messageSize);
            && got.error.None? && |got.frames| <= Outstanding(c)
            && (chunk != [] ==> Outstanding(c) > 0)
  {
    hide Step, Possible, IsRun, After, ParseAll, Concat, TryPeekFrameSize, SelfDelimiting, Outstanding, Tracks;
    var size, sent := p.messageSize, After(events, serverSize).sent;
    var earlier := ParseAll(back, size);
    assert back + (chunk + more) == back + chunk + more;
    SentDelimitsItself(events, serverSize, frames, later, size);
    ParsePrefix(sent, back, chunk + more, size);
    ParsePrefix(sent, back + chunk, more, size);
    ParseAppend(back, chunk, size);
    assert Outstanding(c) == built - |earlier.frames| by {
      TrackedWindow(p, c, built, |earlier.frames|, []);
    }
    if |earlier.frames| == |sent| {
      NothingFollows(sent, earlier.rest, chunk, more);
    }
  }

  /** Between callbacks, if no StreamSend has failed, exactly the frames of the one-shot
      parse of everything received have been given to the transport, in order. */
  lemma EveryFrameIsEchoedOnce(events: seq<Event>, messageSize: nat)
    requires IsRun(events, messageSize) && SendNext(false) !in events
    requires !After(events, messageSize).broken && After(events, messageSize).callback.Idle?
    ensures var st := After(events, messageSize);
            && st.sent == ParseAll(st.received, messageSize).frames
            && (st.shutdownStarted ==> st.completed == |st.sent|)
  {
    hide Step, Possible, IsRun, After, ParseAll;
    RunIsSound(events, messageSize);
    LossMeansFailure(events, messageSize);
    var st := After(events, messageSize);
    assert st.sent + [] == st.sent;
  }

  /** Without a failed send the pending count is the number of frames extracted and not yet
      completed, and the guard of the decrement always holds. */
  lemma PendingCountIsExact(events: seq<Event>, messageSize: nat)
    requires IsRun(events, messageSize) && !After(events, messageSize).broken
    ensures var st := After(events, messageSize);
            && st.pendingSends == st.parsed - st.completed
            && (Possible(st, SendComplete) ==> st.pendingSends > 0)
  {
    hide IsRun, After, Step;
    RunIsSound(events, messageSize);
  }

  /** The stream is shut down at most once, and only when the peer has finished and every
      extracted frame's echo has been completed. */
  lemma ShutdownOnceAndLast(events: seq<Event>, messageSize: nat)
    requires IsRun(events, messageSize) && !After(events, messageSize).broken
    ensures var st := After(events, messageSize);
            && st.shutdownCalls <= 1
            && (st.shutdownCalls == 1 ==> st.peerFinished && st.completed == st.parsed)
  {
    hide IsRun, After, Step;
    RunIsSound(events, messageSize);
  }

  /** At rest after the peer's end, with every send the transport took completed, the stream
      has been shut down if and only if no StreamSend ever failed. */
  lemma ShutdownIffNoFailure(events: seq<Event>, messageSize: nat)
    requires IsRun(events, messageSize)
    requires var st := After(events, messageSize);
             !st.broken && st.callback.Idle? && st.peerFinished && st.underWay == 0
    ensures After(events, messageSize).shutdownStarted <==> SendNext(false) !in events
  {
    hide Step, Possible;
    RunIsSound(events, messageSize);
    LossMeansFailure(events, messageSize);
  }

  lemma OneFrameParsesAlone(frame: Bytes, messageSize: nat)
    requires TryPeekFrameSize(frame, messageSize) == Complete(|frame|)
    ensures ParseAll(frame, messageSize) == Parsed([frame], [], None)
  {
    hide TryPeekFrameSize;
    assert frame[..|frame|] == frame && frame[|frame|..] == [];
    NothingToParse(frame[|frame|..], messageSize);
  }

  /** How it fails: a peer that ends with one complete frame, whose echo is refused, leaves a
      stream at rest that is never shut down, its pending count stuck at one. */
  lemma RefusedEchoStrandsTheStream(frame: Bytes, messageSize: nat)
    requires TryPeekFrameSize(frame, messageSize) == Complete(|frame|)
    ensures var events := [Receive(frame, true), SendNext(false)];
            && IsRun(events, messageSize)
            && var st := After(events, messageSize);
               && !st.broken && st.callback.Idle? && st.peerFinished && st.underWay == 0
               && st.pendingSends == 1 && !st.shutdownStarted
  {
    hide ParseAll, TryPeekFrameSize;
    var first := Receive(frame, true);
    OneFrameParsesAlone(frame, messageSize);
    assert FRESH_STREAM.receiveBuffer + frame == frame;
    assert [first, SendNext(false)][..1] == [first] && [first][..0] == [];
    assert IsRun([], messageSize) && After([], messageSize) == FRESH_STREAM;
    assert IsRun([first], messageSize) && After([first], messageSize) == Step(FRESH_STREAM, first, messageSize);
  }

  // ---------------------------------------------------------------- the stream context

  lemma NothingYet(p: Parsed)
    ensures Resume([], p) == p
  {
    assert [] + p.frames == p.frames;
  }

  lemma NoBuffers()
    ensures Concat([]) == []
  {
  }

  class ServerStreamContext {
    const messageSize: nat
    var receiveBuffer: Bytes
    var pendingSends: nat
    var peerFinished: bool
    var shutdownStarted: bool
    var callback: Callback
    ghost var received: Bytes
    ghost var sent: seq<Bytes>
    ghost var underWay: nat
    ghost var lost: nat
    ghost var parsed: nat
    ghost var completed: nat
    ghost var shutdownCalls: nat
    ghost var broken: bool

    ghost function State(): Stream
      reads this
    {
      Stream(receiveBuffer, pendingSends, peerFinished, shutdownStarted, callback,
             received, sent, underWay, lost, parsed, completed, shutdownCalls, broken)
    }

    constructor (messageSize: nat)
      ensures this.messageSize == messageSize && State() == FRESH_STREAM
    {
      this.messageSize := messageSize;
      receiveBuffer, pendingSends, peerFinished, shutdownStarted, callback := [], 0, false, false, Idle;
      received, sent, underWay, lost, parsed, completed, shutdownCalls, broken := [], [], 0, 0, 0, 0, 0, false;
    }

    method MaybeShutdownStream()
      modifies this`shutdownStarted, this`shutdownCalls
      ensures State() == MaybeShutdown(old(State()))
    {
      if peerFinished && pendingSends == 0 && !shutdownStarted {
        shutdownStarted := true;
        shutdownCalls := shutdownCalls + 1;
      }
    }

    /** The loop of the callback: each complete frame is counted as it is extracted. */
    method ExtractFrames() returns (echoes: seq<Bytes>, error: Option<FrameError>)
      modifies this`receiveBuffer, this`pendingSends, this`parsed
      ensures ParseAll(old(receiveBuffer), messageSize) == Parsed(echoes, receiveBuffer, error)
      ensures pendingSends == old(pendingSends) + |echoes| && parsed == old(parsed) + |echoes|
    {
      hide ParseAll, TryPeekFrameSize;
      echoes, error := [], None;
      NothingYet(ParseAll(receiveBuffer, messageSize));
      while true
        invariant ParseAll(old(receiveBuffer), messageSize) == Resume(echoes, ParseAll(receiveBuffer, messageSize))
        invariant pendingSends == old(pendingSends) + |echoes| && parsed == old(parsed) + |echoes|
        invariant error == None
        decreases |receiveBuffer|
      {
        match TryPeekFrameSize(receiveBuffer, messageSize) {
          case Incomplete =>
            NothingMore(receiveBuffer, messageSize);
            assert echoes + [] == echoes;
            return;
          case Malformed(e) =>
            NothingMore(receiveBuffer, messageSize);
            assert echoes + [] == echoes;
            error := Some(e);
            return;
          case Complete(size) =>
            ResumeOne(echoes, receiveBuffer, messageSize);
            pendingSends, parsed := pendingSends + 1, parsed + 1;
            echoes, receiveBuffer := echoes + [receiveBuffer[..size]], receiveBuffer[size..];
        }
      }
    }

    method AppendBuffers(buffers: seq<Bytes>)
      modifies this`receiveBuffer
      ensures receiveBuffer == old(receiveBuffer) + Concat(buffers)
    {
      hide Concat;
      NoBuffers();
      for i := 0 to |buffers|
        invariant receiveBuffer == old(receiveBuffer) + Concat(buffers[..i])
      {
        ConcatSnoc(buffers[..i + 1]);
        assert buffers[..i + 1][..i] == buffers[..i] && buffers[..i + 1][i] == buffers[i];
        receiveBuffer := receiveBuffer + buffers[i];
      }
      assert buffers[..|buffers|] == buffers;
    }

    /** First locked region of the receive callback, on the buffers of one event. */
    method OnReceive(buffers: seq<Bytes>, fin: bool)
      requires Possible(State(), Receive(Concat(buffers), fin))
      modifies this
      ensures State() == Step(old(State()), Receive(Concat(buffers), fin), messageSize)
      ensures old(Sound(State()) && Echoing(State(), messageSize)) ==> Sound(State()) && Echoing(State(), messageSize)
    {
      hide Sound, Echoing, ParseAll, Concat;
      Keeps(State(), Receive(Concat(buffers), fin), messageSize);
      AppendBuffers(buffers);
      received := received + Concat(buffers);
      var echoes, error := ExtractFrames();
      if error.Some? {
        broken := true;
        return;
      }
      if fin {
        peerFinished := true;
      }
      callback := Sending(echoes);
    }

    /** One StreamSend; a failure returns from the callback at once. */
    method SendNextEcho(accepted: bool)
      requires Possible(State(), SendNext(accepted))
      modifies this`callback, this`sent, this`underWay, this`lost
      ensures State() == Step(old(State()), SendNext(accepted), messageSize)
      ensures old(Sound(State()) && Echoing(State(), messageSize)) ==> Sound(State()) && Echoing(State(), messageSize)
    {
      hide Sound, Echoing;
      Keeps(State(), SendNext(accepted), messageSize);
      if !accepted {
        lost := lost + |callback.echoes|;
        callback := Idle;
        return;
      }
      sent := sent + [callback.echoes[0]];
      callback, underWay := Sending(callback.echoes[1..]), underWay + 1;
    }

    /** Second locked region of the receive callback. */
    method EndReceive()
      requires Possible(State(), FinishReceive)
      modifies this`callback, this`shutdownStarted, this`shutdownCalls
      ensures State() == Step(old(State()), FinishReceive, messageSize)
      ensures old(Sound(State()) && Echoing(State(), messageSize)) ==> Sound(State()) && Echoing(State(), messageSize)
    {
      hide Sound, Echoing;
      Keeps(State(), FinishReceive, messageSize);
      callback := Idle;
      MaybeShutdownStream();
    }

    method OnSendComplete()
      requires Possible(State(), SendComplete)
      modifies this`pendingSends, this`underWay, this`completed, this`shutdownStarted, this`shutdownCalls
      ensures State() == Step(old(State()), SendComplete, messageSize)
      ensures old(Sound(State()) && Echoing(State(), messageSize)) ==> Sound(State()) && Echoing(State(), messageSize)
    {
      hide Sound, Echoing;
      Keeps(State(), SendComplete, messageSize);
      underWay, completed := underWay - 1, completed + 1;
      if pendingSends > 0 {
        pendingSends := pendingSends - 1;
      }
      MaybeShutdownStream();
    }

    method OnPeerSendShutdown()
      requires Possible(State(), PeerSendShutdown)
      modifies this`peerFinished, this`shutdownStarted, this`shutdownCalls
      ensures State() == Step(old(State()), PeerSendShutdown, messageSize)
      ensures old(Sound(State()) && Echoing(State(), messageSize)) ==> Sound(State()) && Echoing(State(), messageSize)
    {
      hide Sound, Echoing;
      Keeps(State(), PeerSendShutdown, messageSize);
      peerFinished := true;
      MaybeShutdownStream();
    }
  }
}
