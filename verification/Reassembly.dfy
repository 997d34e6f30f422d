/** Turning a byte stream that arrives in arbitrary chunks back into frames.
    `ParseAll` reads the whole stream at once; the connection classes below hold a
    receive buffer, append each chunk and extract what has become complete. */
module Reassembly {
  import opened Wire

  datatype Option<+T> = None | Some(value: T)

  datatype Parsed = Parsed(frames: seq<Bytes>, rest: Bytes, error: Option<FrameError>)

  function Concat(parts: seq<Bytes>): Bytes {
    if parts == [] then [] else parts[0] + Concat(parts[1..])
  }

  lemma ConcatCons(head: Bytes, tail: seq<Bytes>, rest: Bytes)
    ensures Concat([head] + tail) + rest == head + (Concat(tail) + rest)
  {
    assert ([head] + tail)[1..] == tail;
  }

  lemma {:induction false} ConcatAppend(a: seq<Bytes>, b: seq<Bytes>)
    ensures Concat(a + b) == Concat(a) + Concat(b)
  {
    if a == [] {
      assert a + b == b;
    } else {
      assert (a + b)[1..] == a[1..] + b;
      ConcatAppend(a[1..], b);
    }
  }

  /** One-shot parse: extract complete frames until the buffer runs short or is malformed. */
  function ParseAll(buffer: Bytes, fallback: nat): Parsed
    decreases |buffer|
  {
    match TryPeekFrameSize(buffer, fallback)
    case Incomplete => Parsed([], buffer, None)
    case Malformed(e) => Parsed([], buffer, Some(e))
    case Complete(size) =>
      var tail := ParseAll(buffer[size..], fallback);
      Parsed([buffer[..size]] + tail.frames, tail.rest, tail.error)
  }

  lemma ParseOne(buffer: Bytes, fallback: nat)
    requires TryPeekFrameSize(buffer, fallback).Complete?
    ensures var size := TryPeekFrameSize(buffer, fallback).size;
            var tail := ParseAll(buffer[size..], fallback);
            ParseAll(buffer, fallback) == Parsed([buffer[..size]] + tail.frames, tail.rest, tail.error)
  {
    hide TryPeekFrameSize;
  }

  lemma NoParts()
    ensures Concat([]) == []
  {
  }

  function FaultOf(peek: Peek): Option<FrameError> {
    if peek.Malformed? then Some(peek.error) else None
  }

  lemma NothingMore(buffer: Bytes, size: nat)
    requires !TryPeekFrameSize(buffer, size).Complete?
    ensures ParseAll(buffer, size)
         == Parsed([], buffer, FaultOf(TryPeekFrameSize(buffer, size)))
  {
  }

  /** Nothing is lost or reordered: the frames and the leftover are the input. */
  lemma {:induction false} ParseAccountsForEveryByte(buffer: Bytes, fallback: nat)
    ensures Concat(ParseAll(buffer, fallback).frames) + ParseAll(buffer, fallback).rest == buffer
    decreases |buffer|
  {
    hide TryPeekFrameSize, ParseAll, Concat;
    var peek := TryPeekFrameSize(buffer, fallback);
    if peek.Complete? {
      ParseAccountsForEveryByte(buffer[peek.size..], fallback);
      ParseOne(buffer, fallback);
      var p := ParseAll(buffer[peek.size..], fallback);
      ConcatCons(buffer[..peek.size], p.frames, p.rest);
      assert buffer[..peek.size] + buffer[peek.size..] == buffer;
    } else {
      NothingMore(buffer, fallback);
      NoParts();
      assert [] + buffer == buffer;
    }
  }

  /** The leftover holds no complete frame; it is malformed exactly when parsing fails. */
  lemma {:induction false} ParseLeftover(buffer: Bytes, fallback: nat)
    ensures var p := ParseAll(buffer, fallback);
            TryPeekFrameSize(p.rest, fallback) == (if p.error.None? then Incomplete else Malformed(p.error.value))
    decreases |buffer|
  {
    var peek := TryPeekFrameSize(buffer, fallback);
    if !peek.Complete? {
    } else {
      ParseLeftover(buffer[peek.size..], fallback);
    }
  }

  lemma PeekOfOneFrame(buffer: Bytes, fallback: nat)
    requires TryPeekFrameSize(buffer, fallback).Complete?
    ensures var size := TryPeekFrameSize(buffer, fallback).size;
            TryPeekFrameSize(buffer[..size], fallback) == Complete(size)
  {
    var b := buffer[..TryPeekFrameSize(buffer, fallback).size];
    assert b[..4] == buffer[..4] && b[4..8] == buffer[4..8];
    assert b[8..16] == buffer[8..16] && b[16..24] == buffer[16..24];
  }

  /** Every emitted frame is exactly one complete frame. */
  lemma {:induction false} ParseEmitsWholeFrames(buffer: Bytes, fallback: nat, i: nat)
    requires i < |ParseAll(buffer, fallback).frames|
    ensures var frame := ParseAll(buffer, fallback).frames[i];
            TryPeekFrameSize(frame, fallback) == Complete(|frame|)
    decreases i
  {
    if i == 0 {
      PeekOfOneFrame(buffer, fallback);
    } else {
      ParseEmitsWholeFrames(buffer[TryPeekFrameSize(buffer, fallback).size..], fallback, i - 1);
    }
  }

  lemma {:induction false} ParsedFramesHaveHeaders(buffer: Bytes, fallback: nat)
    ensures forall i | 0 <= i < |ParseAll(buffer, fallback).frames| ::
              |ParseAll(buffer, fallback).frames[i]| >= HEADER_SIZE
  {
    forall i | 0 <= i < |ParseAll(buffer, fallback).frames|
      ensures |ParseAll(buffer, fallback).frames[i]| >= HEADER_SIZE
    {
      ParseEmitsWholeFrames(buffer, fallback, i);
    }
  }

  /** Parsing may stop after any prefix and resume with the leftover. */
  lemma {:induction false} ParseAppend(a: Bytes, b: Bytes, fallback: nat)
    ensures var pa := ParseAll(a, fallback);
            ParseAll(a + b, fallback) ==
              if pa.error.Some? then Parsed(pa.frames, pa.rest + b, pa.error)
              else var pb := ParseAll(pa.rest + b, fallback);
                   Parsed(pa.frames + pb.frames, pb.rest, pb.error)
    decreases |a|
  {
    hide TryPeekFrameSize;
    var peek := TryPeekFrameSize(a, fallback);
    if !peek.Incomplete? {
      PeekIsStable(a, b, fallback);
      if peek.Complete? {
        ParseAppend(a[peek.size..], b, fallback);
        assert (a + b)[..peek.size] == a[..peek.size];
        assert (a + b)[peek.size..] == a[peek.size..] + b;
        var pa := ParseAll(a[peek.size..], fallback);
        if pa.error.None? {
          var pb := ParseAll(pa.rest + b, fallback);
          assert [a[..peek.size]] + (pa.frames + pb.frames) == ([a[..peek.size]] + pa.frames) + pb.frames;
        }
      }
    } else {
      var pb := ParseAll(a + b, fallback);
      assert [] + pb.frames == pb.frames;
    }
  }

  /** A parse continued after the frames already extracted. */
  function Resume(frames: seq<Bytes>, p: Parsed): Parsed {
    Parsed(frames + p.frames, p.rest, p.error)
  }

  lemma ResumeOne(frames: seq<Bytes>, buffer: Bytes, size: nat)
    requires TryPeekFrameSize(buffer, size).Complete?
    ensures var n := TryPeekFrameSize(buffer, size).size;
            Resume(frames, ParseAll(buffer, size)) == Resume(frames + [buffer[..n]], ParseAll(buffer[n..], size))
  {
    hide TryPeekFrameSize;
    var n := TryPeekFrameSize(buffer, size).size;
    var tail := ParseAll(buffer[n..], size);
    assert frames + ([buffer[..n]] + tail.frames) == (frames + [buffer[..n]]) + tail.frames;
  }

  // ---------------------------------------------------------------- streams of built frames

  ghost predicate SelfDelimiting(frames: seq<Bytes>, fallback: nat) {
    forall i, tail: Bytes | 0 <= i < |frames| ::
      TryPeekFrameSize(frames[i] + tail, fallback) == Complete(|frames[i]|)
  }

  lemma {:induction false} ParseConcat(frames: seq<Bytes>, fallback: nat)
    requires SelfDelimiting(frames, fallback)
    ensures ParseAll(Concat(frames), fallback) == Parsed(frames, [], None)
  {
    if frames == [] {
    } else {
      var tail := Concat(frames[1..]);
      assert TryPeekFrameSize(frames[0] + tail, fallback) == Complete(|frames[0]|);
      ParseConcat(frames[1..], fallback);
      assert Concat(frames)[..|frames[0]|] == frames[0];
      assert Concat(frames)[|frames[0]|..] == tail;
      assert frames == [frames[0]] + frames[1..];
    }
  }

  /** Any prefix of a stream of frames parses to the frames it covers, without error, and
      what is left over is the beginning of the remaining frames. */
  lemma ParsePrefix(frames: seq<Bytes>, a: Bytes, b: Bytes, fallback: nat)
    requires SelfDelimiting(frames, fallback)
    requires a + b == Concat(frames)
    ensures var p := ParseAll(a, fallback);
            && p.error.None?
            && p.frames <= frames
            && p.rest + b == Concat(frames[|p.frames|..])
            && TryPeekFrameSize(p.rest, fallback).Incomplete?
  {
    var p := ParseAll(a, fallback);
    ParseConcat(frames, fallback);
    ParseAppend(a, b, fallback);
    ParseLeftover(a, fallback);
    assert p.error.None?;
    var q := ParseAll(p.rest + b, fallback);
    assert frames == p.frames + q.frames;
    assert frames[|p.frames|..] == q.frames;
    ParseAccountsForEveryByte(p.rest + b, fallback);
    assert q.rest == [];
    assert Concat(q.frames) + [] == Concat(q.frames);
  }

  /** The frames one stream carries: sequence numbers 0, 1, 2, ... with the given stamps. */
  function BuiltFrames(size: nat, stamps: seq<nat>): (frames: seq<Bytes>)
    requires size >= HEADER_SIZE
    ensures |frames| == |stamps|
    ensures forall i | 0 <= i < |stamps| :: frames[i] == Frame(i, size, stamps[i])
  {
    seq(|stamps|, i requires 0 <= i < |stamps| => Frame(i, size, stamps[i]))
  }

  lemma BuiltFramesAreSelfDelimiting(size: nat, stamps: seq<nat>, fallback: nat)
    requires HEADER_SIZE <= size < TWO_TO_32
    ensures SelfDelimiting(BuiltFrames(size, stamps), fallback)
  {
    forall i, tail: Bytes | 0 <= i < |stamps|
      ensures TryPeekFrameSize(BuiltFrames(size, stamps)[i] + tail, fallback) == Complete(size)
    {
      PeekFrame(i, size, stamps[i], tail, fallback);
    }
  }

  /** Round trip: a concatenation of frames with arbitrary sequence numbers, sizes and
      timestamps parses back to exactly those frames, whatever the fallback size. */
  lemma {:induction false} FrameRoundTrip(headers: seq<(nat, nat, nat)>, fallback: nat)
    requires forall i | 0 <= i < |headers| :: HEADER_SIZE <= headers[i].1 < TWO_TO_32
    ensures var frames := seq(|headers|, i requires 0 <= i < |headers| =>
                                Frame(headers[i].0, headers[i].1, headers[i].2));
            && ParseAll(Concat(frames), fallback) == Parsed(frames, [], None)
            && forall i | 0 <= i < |headers| ::
                 ReadHeader(frames[i]) == Header(MESSAGE_MAGIC, headers[i].1,
                                                 headers[i].0 % TWO_TO_64, headers[i].2 % TWO_TO_64)
  {
    var frames := seq(|headers|, i requires 0 <= i < |headers| =>
                        Frame(headers[i].0, headers[i].1, headers[i].2));
    forall i, tail: Bytes | 0 <= i < |headers|
      ensures TryPeekFrameSize(frames[i] + tail, fallback) == Complete(|frames[i]|)
    {
      PeekFrame(headers[i].0, headers[i].1, headers[i].2, tail, fallback);
    }
    ParseConcat(frames, fallback);
    forall i | 0 <= i < |headers|
      ensures ReadHeader(frames[i]) == Header(MESSAGE_MAGIC, headers[i].1,
                                              headers[i].0 % TWO_TO_64, headers[i].2 % TWO_TO_64)
    {
      PeekFrame(headers[i].0, headers[i].1, headers[i].2, [], fallback);
      assert frames[i] + [] == frames[i];
    }
  }

  // ---------------------------------------------------------------- chunk by chunk

  /** A receive buffer and the frames handed on so far; `failed` once parsing has thrown. */
  datatype Receiver = Receiver(buffer: Bytes, delivered: seq<Bytes>, failed: bool)

  /** The server's handler throws before it hands on what it had extracted from the same
      chunk. */
  function ServerReceive(r: Receiver, chunk: Bytes, fallback: nat): Receiver {
    if r.failed then r
    else
      var p := ParseAll(r.buffer + chunk, fallback);
      Receiver(p.rest, if p.error.Some? then r.delivered else r.delivered + p.frames, p.error.Some?)
  }

  /** The client's handler counts each frame as it extracts it, so a later throw loses none. */
  function ClientReceive(r: Receiver, chunk: Bytes, fallback: nat): Receiver {
    if r.failed then r
    else
      var p := ParseAll(r.buffer + chunk, fallback);
      Receiver(p.rest, r.delivered + p.frames, p.error.Some?)
  }

  const FRESH := Receiver([], [], false)

  function ServerReceiveAll(chunks: seq<Bytes>, fallback: nat): Receiver {
    if chunks == [] then FRESH
    else ServerReceive(ServerReceiveAll(chunks[..|chunks| - 1], fallback), chunks[|chunks| - 1], fallback)
  }

  function ClientReceiveAll(chunks: seq<Bytes>, fallback: nat): Receiver {
    if chunks == [] then FRESH
    else ClientReceive(ClientReceiveAll(chunks[..|chunks| - 1], fallback), chunks[|chunks| - 1], fallback)
  }

  lemma ConcatSnoc(chunks: seq<Bytes>)
    requires chunks != []
    ensures Concat(chunks) == Concat(chunks[..|chunks| - 1]) + chunks[|chunks| - 1]
  {
    var last := |chunks| - 1;
    assert chunks == chunks[..last] + [chunks[last]];
    ConcatAppend(chunks[..last], [chunks[last]]);
    assert Concat([chunks[last]]) == chunks[last];
  }

  /** However the stream is cut, the client consumes the frames of the one-shot parse and
      fails exactly when it does. */
  lemma {:induction false} ClientChunking(chunks: seq<Bytes>, fallback: nat)
    ensures var r := ClientReceiveAll(chunks, fallback);
            var p := ParseAll(Concat(chunks), fallback);
            && r.delivered == p.frames
            && r.failed == p.error.Some?
            && (!r.failed ==> r.buffer == p.rest)
  {
    if chunks == [] {
    } else {
      var earlier, chunk := chunks[..|chunks| - 1], chunks[|chunks| - 1];
      ClientChunking(earlier, fallback);
      ConcatSnoc(chunks);
      ParseAppend(Concat(earlier), chunk, fallback);
    }
  }

  /** The number of chunks taken before the one that makes parsing fail. */
  function ChunksBeforeFailure(chunks: seq<Bytes>, fallback: nat): (k: nat)
    ensures k <= |chunks|
  {
    if chunks == [] then 0
    else if ServerReceiveAll(chunks[..|chunks| - 1], fallback).failed
    then ChunksBeforeFailure(chunks[..|chunks| - 1], fallback)
    else if ServerReceiveAll(chunks, fallback).failed then |chunks| - 1
    else |chunks|
  }

  /** The server echoes the one-shot frames of the chunks that precede the failing one;
      without a failure that is every chunk. */
  lemma {:induction false} ServerChunking(chunks: seq<Bytes>, fallback: nat)
    ensures var r := ServerReceiveAll(chunks, fallback);
            var p := ParseAll(Concat(chunks), fallback);
            var k := ChunksBeforeFailure(chunks, fallback);
            && r.failed == p.error.Some?
            && (r.failed <==> k < |chunks|)
            && r.delivered == ParseAll(Concat(chunks[..k]), fallback).frames
            && (!r.failed ==> r.delivered == p.frames && r.buffer == p.rest)
  {
    if chunks == [] {
    } else {
      var earlier, chunk := chunks[..|chunks| - 1], chunks[|chunks| - 1];
      ServerChunking(earlier, fallback);
      ConcatSnoc(chunks);
      ParseAppend(Concat(earlier), chunk, fallback);
      assert chunks[..|chunks|] == chunks;
      assert earlier[..|earlier|] == earlier;
      var k := ChunksBeforeFailure(chunks, fallback);
      assert k <= |earlier| ==> chunks[..k] == earlier[..k];
    }
  }

  lemma MalformedFromTheStart(chunks: seq<Bytes>, fallback: nat)
    requires TryPeekFrameSize(Concat(chunks), fallback).Malformed?
    ensures ServerReceiveAll(chunks, fallback).delivered == []
    ensures ParseAll(Concat(chunks), fallback).frames == []
  {
    hide TryPeekFrameSize, ServerReceiveAll, Concat, ChunksBeforeFailure;
    ServerChunking(chunks, fallback);
    var k := ChunksBeforeFailure(chunks, fallback);
    ConcatAppend(chunks[..k], chunks[k..]);
    assert chunks == chunks[..k] + chunks[k..];
    ParseAppend(Concat(chunks[..k]), Concat(chunks[k..]), fallback);
  }

  lemma ServerOneChunk(chunk: Bytes, fallback: nat)
    ensures ServerReceiveAll([chunk], fallback) == ServerReceive(FRESH, chunk, fallback)
    ensures FRESH.buffer + chunk == chunk
  {
    assert [chunk][..0] == [];
  }

  lemma ChunkedAtOnce(stream: Bytes, fallback: nat)
    ensures Concat([stream]) == stream
    ensures ParseAll(stream, fallback).error.Some? ==> ServerReceiveAll([stream], fallback).delivered == []
  {
    hide TryPeekFrameSize, ParseAll;
    ServerOneChunk(stream, fallback);
    assert Concat([stream]) == stream + [] == stream;
  }

  lemma FramesBeforeTheFault(stream: Bytes, fallback: nat)
    requires ParseAll(stream, fallback).error.Some? && !TryPeekFrameSize(stream, fallback).Malformed?
    ensures ParseAll(stream, fallback).frames != []
  {
    hide TryPeekFrameSize;
  }

  /** Exactly when chunking cannot matter to the server: the stream is well formed, or its
      very first frame is already malformed. */
  lemma ServerChunkingMattersOnlyAfterAFrame(stream: Bytes, fallback: nat)
    ensures (forall chunks: seq<Bytes> | Concat(chunks) == stream ::
               ServerReceiveAll(chunks, fallback).delivered == ParseAll(stream, fallback).frames)
       <==> (var p := ParseAll(stream, fallback); p.error.None? || TryPeekFrameSize(stream, fallback).Malformed?)
  {
    hide TryPeekFrameSize, ServerReceiveAll, Concat, ParseAll;
    var p := ParseAll(stream, fallback);
    forall chunks: seq<Bytes> | Concat(chunks) == stream
        && (p.error.None? || TryPeekFrameSize(stream, fallback).Malformed?)
      ensures ServerReceiveAll(chunks, fallback).delivered == p.frames
    {
      if p.error.None? {
        ServerChunking(chunks, fallback);
      } else {
        MalformedFromTheStart(chunks, fallback);
      }
    }
    if p.error.Some? && !TryPeekFrameSize(stream, fallback).Malformed? {
      ChunkedAtOnce(stream, fallback);
      FramesBeforeTheFault(stream, fallback);
      assert ServerReceiveAll([stream], fallback).delivered == [] != p.frames;
    }
  }

  const ZEROS: Bytes := seq(24, _ => 0)

  lemma ZerosAreMalformed(fallback: nat)
    ensures TryPeekFrameSize(ZEROS, fallback) == Malformed(InvalidMagic)
  {
    assert ZEROS[..4] == [0, 0, 0, 0];
    assert Decode([0, 0, 0, 0]) == 0;
  }

  lemma MalformedTail(good: Bytes, bad: Bytes, fallback: nat)
    requires SelfDelimiting([good], fallback)
    requires TryPeekFrameSize(bad, fallback).Malformed?
    ensures ServerReceiveAll([good, bad], fallback).delivered == [good]
    ensures ServerReceiveAll([good + bad], fallback).delivered == []
  {
    ParseConcat([good], fallback);
    assert Concat([good]) == good + [] == good;
    ParseAppend(good, bad, fallback);
    assert [] + bad == bad;
    ServerOneChunk(good, fallback);
    ServerOneChunk(good + bad, fallback);
    assert [good, bad][..1] == [good];
  }

  /** Any built frame followed by 24 zero bytes is echoed when the two arrive apart and
      dropped when they arrive together. */
  lemma ChunkingExample(sequence: nat, size: nat, timestamp: nat, fallback: nat)
    requires HEADER_SIZE <= size < TWO_TO_32
    ensures var frame := Frame(sequence, size, timestamp);
            && ServerReceiveAll([frame, ZEROS], fallback).delivered == [frame]
            && ServerReceiveAll([frame + ZEROS], fallback).delivered == []
  {
    var frame := Frame(sequence, size, timestamp);
    forall i, tail: Bytes | 0 <= i < |[frame]|
      ensures TryPeekFrameSize([frame][i] + tail, fallback) == Complete(|[frame][i]|)
    {
      PeekFrame(sequence, size, timestamp, tail, fallback);
    }
    ZerosAreMalformed(fallback);
    MalformedTail(frame, ZEROS, fallback);
  }
}
