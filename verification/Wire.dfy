/** The 24-byte message header, the frames that carry it, and the peek that finds a
    complete frame at the front of a byte buffer. Multi-byte fields are little endian,
    as they are when the header structure is copied to memory on the supported hosts. */
module Wire {
  newtype byte = x: int | 0 <= x < 256
  type Bytes = seq<byte>

  const TWO_TO_32: nat := 0x1_0000_0000
  const TWO_TO_64: nat := 0x1_0000_0000_0000_0000
  const HEADER_SIZE: nat := 24
  const MESSAGE_MAGIC: nat := 0x4D53514C

  // ---------------------------------------------------------------- integers

  function Pow256(n: nat): (p: nat)
    ensures p > 0
  {
    if n == 0 then 1 else 256 * Pow256(n - 1)
  }

  lemma FieldWidths()
    ensures Pow256(4) == TWO_TO_32 && Pow256(8) == TWO_TO_64
  {
    assert Pow256(2) == 0x1_0000;
    assert Pow256(4) == 0x1_0000 * 0x1_0000;
    assert Pow256(6) == 0x1_0000 * 0x1_0000 * 0x1_0000;
  }

  /** Stores `value` in an unsigned field of `width` bytes; higher bits are lost. */
  function Encode(value: nat, width: nat): (b: Bytes)
    ensures |b| == width
  {
    if width == 0 then [] else [(value % 256) as byte] + Encode(value / 256, width - 1)
  }

  function Decode(b: Bytes): nat {
    if b == [] then 0 else b[0] as nat + 256 * Decode(b[1..])
  }

  lemma MultipleExceeds(d: int, x: int)
    requires d > 0
    ensures x >= 1 ==> d * x >= d
  {
    if x >= 1 {
      assert d * x == d + d * (x - 1);
      assert d * (x - 1) >= 0;
    }
  }

  lemma RemainderUnique(a: int, d: int, k: int, m: int)
    requires a == d * k + m && 0 <= m < d
    ensures a % d == m
  {
    var x := a / d - k;
    assert d * x == m - a % d by {
      assert a == d * (a / d) + a % d;
      assert d * x == d * (a / d) - d * k;
    }
    MultipleExceeds(d, x);
    MultipleExceeds(d, -x);
  }

  lemma ProductOfThree(p: int, k: int)
    ensures (256 * p) * k == 256 * (p * k)
  {
  }

  /** Taking the lowest byte off and the remainder of the rest is one remainder. */
  lemma RemainderByBytes(value: nat, p: nat)
    requires p > 0
    ensures value % (256 * p) == 256 * ((value / 256) % p) + value % 256
  {
    var q, r := value / 256, value % 256;
    var k, m := q / p, q % p;
    var product := p * k;
    assert q == product + m;
    assert 256 * m + r < 256 * p;
    ProductOfThree(p, k);
    RemainderUnique(value, 256 * p, k, 256 * m + r);
  }

  lemma DecodeFront(low: byte, rest: Bytes)
    ensures Decode([low] + rest) == low as nat + 256 * Decode(rest)
  {
    assert ([low] + rest)[1..] == rest;
  }

  lemma DecodeNothing()
    ensures Decode([]) == 0
  {
  }

  /** Reading a field back gives the stored value modulo the field's range. */
  lemma {:induction false} DecodeEncode(value: nat, width: nat)
    ensures Decode(Encode(value, width)) == value % Pow256(width)
  {
    hide Decode;
    if width == 0 {
      DecodeNothing();
    } else {
      DecodeEncode(value / 256, width - 1);
      DecodeFront((value % 256) as byte, Encode(value / 256, width - 1));
      RemainderByBytes(value, Pow256(width - 1));
    }
  }

  lemma {:induction false} EncodeDecode(b: Bytes)
    ensures Encode(Decode(b), |b|) == b
  {
    if b == [] {
    } else {
      EncodeDecode(b[1..]);
      assert Decode(b) % 256 == b[0] as nat && Decode(b) / 256 == Decode(b[1..]);
      assert b == [b[0]] + b[1..];
    }
  }

  /** Only the value modulo the field's range reaches the field. */
  lemma EncodeTruncates(value: nat, width: nat)
    ensures Encode(value, width) == Encode(value % Pow256(width), width)
  {
    DecodeEncode(value, width);
    EncodeDecode(Encode(value, width));
  }

  // ---------------------------------------------------------------- headers and frames

  datatype Header = Header(magic: nat, reserved: nat, sequence: nat, timestamp: nat)

  function HeaderBytes(h: Header): (b: Bytes)
    ensures |b| == HEADER_SIZE
  {
    Encode(h.magic, 4) + Encode(h.reserved, 4) + Encode(h.sequence, 8) + Encode(h.timestamp, 8)
  }

  function ReadHeader(b: Bytes): Header
    requires |b| >= HEADER_SIZE
  {
    Header(Decode(b[..4]), Decode(b[4..8]), Decode(b[8..16]), Decode(b[16..24]))
  }

  /** The latency of a frame against the clock reading taken for it, in 64 bits. */
  function LatencyAt(frame: Bytes, time: nat): nat {
    if |frame| < HEADER_SIZE then 0 else (time - ReadHeader(frame).timestamp) % TWO_TO_64
  }

  /** Each frame's latency against the clock reading taken for it, in 64 bits. */
  function Latencies(frames: seq<Bytes>, readings: seq<nat>): (l: seq<nat>)
    requires |readings| == |frames|
    ensures |l| == |frames|
  {
    seq(|frames|, i requires 0 <= i < |frames| => LatencyAt(frames[i], readings[i]))
  }

  lemma ReadHeaderBytes(h: Header, tail: Bytes)
    ensures ReadHeader(HeaderBytes(h) + tail)
         == Header(h.magic % TWO_TO_32, h.reserved % TWO_TO_32, h.sequence % TWO_TO_64, h.timestamp % TWO_TO_64)
  {
    var b := HeaderBytes(h) + tail;
    assert b[..4] == Encode(h.magic, 4);
    assert b[4..8] == Encode(h.reserved, 4);
    assert b[8..16] == Encode(h.sequence, 8);
    assert b[16..24] == Encode(h.timestamp, 8);
    FieldWidths();
    DecodeEncode(h.magic, 4);
    DecodeEncode(h.reserved, 4);
    DecodeEncode(h.sequence, 8);
    DecodeEncode(h.timestamp, 8);
  }

  function FillerByte(sequence: nat, offset: nat): byte {
    ((sequence + offset) % 256) as byte
  }

  function Payload(sequence: nat, length: nat): (b: Bytes)
    ensures |b| == length
  {
    seq(length, i requires 0 <= i < length => FillerByte(sequence, HEADER_SIZE + i))
  }

  /** The frame PumpSends builds: header, then a filler derived from the sequence number. */
  function Frame(sequence: nat, size: nat, timestamp: nat): (b: Bytes)
    requires size >= HEADER_SIZE
    ensures |b| == size
  {
    HeaderBytes(Header(MESSAGE_MAGIC, size, sequence, timestamp)) + Payload(sequence, size - HEADER_SIZE)
  }

  /** From its header on, byte i of a frame is its sequence number plus i, modulo 256. */
  lemma FillerOfFrame(sequence: nat, size: nat, timestamp: nat, i: nat)
    requires HEADER_SIZE <= i < size
    ensures Frame(sequence, size, timestamp)[i] as nat == (sequence + i) % 256
  {
    hide Encode;
    var k := i - HEADER_SIZE;
    assert Payload(sequence, size - HEADER_SIZE)[k] == FillerByte(sequence, HEADER_SIZE + k);
    assert HEADER_SIZE + k == i && Frame(sequence, size, timestamp)[i] == Payload(sequence, size - HEADER_SIZE)[k];
  }

  lemma FillerOfWrappedSequence(sequence: nat, offset: nat)
    ensures FillerByte(sequence % TWO_TO_64, offset) == FillerByte(sequence, offset)
  {
    var k, low := sequence / TWO_TO_64, sequence % TWO_TO_64 + offset;
    assert sequence == TWO_TO_64 * k + sequence % TWO_TO_64;
    assert sequence + offset == 256 * (k * 0x100_0000_0000_0000 + low / 256) + low % 256;
    RemainderUnique(sequence + offset, 256, k * 0x100_0000_0000_0000 + low / 256, low % 256);
  }

  /** A 64-bit sequence counter that has wrapped builds the very same frame. */
  lemma FrameOfWrappedSequence(sequence: nat, size: nat, timestamp: nat)
    requires size >= HEADER_SIZE
    ensures Frame(sequence % TWO_TO_64, size, timestamp) == Frame(sequence, size, timestamp)
  {
    FieldWidths();
    EncodeTruncates(sequence, 8);
    forall i: nat
      ensures FillerByte(sequence % TWO_TO_64, i) == FillerByte(sequence, i)
    {
      FillerOfWrappedSequence(sequence, i);
    }
    assert Payload(sequence % TWO_TO_64, size - HEADER_SIZE) == Payload(sequence, size - HEADER_SIZE);
  }

  /** The late rewrite: copy the header out, replace the timestamp, copy it back. */
  function Stamp(frame: Bytes, timestamp: nat): (b: Bytes)
    requires |frame| >= HEADER_SIZE
    ensures |b| == |frame|
  {
    HeaderBytes(ReadHeader(frame).(timestamp := timestamp)) + frame[HEADER_SIZE..]
  }

  /** Whatever the buffer holds, the rewrite touches bytes 16 to 23 and nothing else. */
  lemma StampChangesOnlyTimestamp(frame: Bytes, timestamp: nat)
    requires |frame| >= HEADER_SIZE
    ensures Stamp(frame, timestamp) == frame[..16] + Encode(timestamp, 8) + frame[24..]
  {
    hide Encode, Decode;
    EncodeDecode(frame[..4]);
    EncodeDecode(frame[4..8]);
    EncodeDecode(frame[8..16]);
    assert frame[..16] == frame[..4] + frame[4..8] + frame[8..16];
  }

  lemma StampTwice(frame: Bytes, first: nat, second: nat)
    requires |frame| >= HEADER_SIZE
    ensures Stamp(Stamp(frame, first), second) == Stamp(frame, second)
  {
    StampChangesOnlyTimestamp(frame, first);
    StampChangesOnlyTimestamp(Stamp(frame, first), second);
    StampChangesOnlyTimestamp(frame, second);
    assert Stamp(frame, first)[..16] == frame[..16] && Stamp(frame, first)[24..] == frame[24..];
  }

  lemma StampFrame(sequence: nat, size: nat, built: nat, timestamp: nat)
    requires size >= HEADER_SIZE
    ensures Stamp(Frame(sequence, size, built), timestamp) == Frame(sequence, size, timestamp)
  {
    var f := Frame(sequence, size, built);
    StampChangesOnlyTimestamp(f, timestamp);
    assert f[..16] == Encode(MESSAGE_MAGIC, 4) + Encode(size, 4) + Encode(sequence, 8);
    assert f[24..] == Payload(sequence, size - HEADER_SIZE);
  }

  // ---------------------------------------------------------------- peeking at a buffer

  datatype FrameError = InvalidMagic | InvalidSize

  datatype Peek = Incomplete | Complete(size: nat) | Malformed(error: FrameError)

  function FrameSizeFromHeader(h: Header, fallback: nat): nat {
    if h.reserved >= HEADER_SIZE then h.reserved else fallback
  }

  function TryPeekFrameSize(buffer: Bytes, fallback: nat): (p: Peek)
    ensures p.Complete? ==> HEADER_SIZE <= p.size <= |buffer|
  {
    if |buffer| < HEADER_SIZE then Incomplete
    else
      var h := ReadHeader(buffer);
      if h.magic != MESSAGE_MAGIC then Malformed(InvalidMagic)
      else
        var size := FrameSizeFromHeader(h, fallback);
        if size < HEADER_SIZE then Malformed(InvalidSize)
        else if |buffer| < size then Incomplete
        else Complete(size)
  }

  /** A decision once taken does not depend on bytes that arrive later. */
  lemma PeekIsStable(buffer: Bytes, more: Bytes, fallback: nat)
    requires !TryPeekFrameSize(buffer, fallback).Incomplete?
    ensures TryPeekFrameSize(buffer + more, fallback) == TryPeekFrameSize(buffer, fallback)
  {
    var b := buffer + more;
    assert b[..4] == buffer[..4] && b[4..8] == buffer[4..8];
    assert b[8..16] == buffer[8..16] && b[16..24] == buffer[16..24];
  }

  /** A built frame is recognised at the front of any buffer, for every fallback size. */
  lemma PeekFrame(sequence: nat, size: nat, timestamp: nat, tail: Bytes, fallback: nat)
    requires HEADER_SIZE <= size < TWO_TO_32
    ensures TryPeekFrameSize(Frame(sequence, size, timestamp) + tail, fallback) == Complete(size)
    ensures ReadHeader(Frame(sequence, size, timestamp) + tail)
         == Header(MESSAGE_MAGIC, size, sequence % TWO_TO_64, timestamp % TWO_TO_64)
  {
    hide Encode, Decode, Payload;
    var h := Header(MESSAGE_MAGIC, size, sequence, timestamp);
    var rest := Payload(sequence, size - HEADER_SIZE) + tail;
    assert Frame(sequence, size, timestamp) + tail == HeaderBytes(h) + rest;
    ReadHeaderBytes(h, rest);
  }

  /** Any other header: a wrong magic is malformed; a length field too small to be one stands
      for the fallback size, which is malformed if it is too small as well; and a frame is
      complete once all its bytes are there. */
  lemma PeekForeignHeader(h: Header, rest: Bytes, fallback: nat)
    requires h.magic < TWO_TO_32 && h.reserved < TWO_TO_32
    ensures var p, length := TryPeekFrameSize(HeaderBytes(h) + rest, fallback), |HeaderBytes(h) + rest|;
            && (h.magic != MESSAGE_MAGIC <==> p == Malformed(InvalidMagic))
            && (h.magic == MESSAGE_MAGIC && h.reserved < HEADER_SIZE && fallback < HEADER_SIZE <==>
                  p == Malformed(InvalidSize))
            && (h.magic == MESSAGE_MAGIC && h.reserved >= HEADER_SIZE ==>
                  p == if h.reserved <= length then Complete(h.reserved) else Incomplete)
            && (h.magic == MESSAGE_MAGIC && h.reserved < HEADER_SIZE <= fallback ==>
                  p == if fallback <= length then Complete(fallback) else Incomplete)
  {
    hide Encode, Decode, ReadHeader;
    ReadHeaderBytes(h, rest);
  }
}
