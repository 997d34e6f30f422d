/** The send side of an SCTP connection without TLS: SendCopy queues, the send thread
    writes one message at a time in pieces of whatever size the socket takes, and a
    requested half-close is carried out once the queue is empty. Each method is one step of
    one thread: a locked region, one SendBlocking, or one shutdown call. */
module SctpConnections {
  import opened Wire
  import opened Reassembly
  import opened Transport

  // ---------------------------------------------------------------- bytes with their streams

  type TaggedByte = (nat, byte)

  function Tag(s: nat, data: Bytes): (t: seq<TaggedByte>)
    ensures |t| == |data|
  {
    seq(|data|, i requires 0 <= i < |data| => (s, data[i]))
  }

  /** The bytes of a list of messages in order, each with the stream it belongs to. */
  function Tagged(sends: seq<Send>): seq<TaggedByte> {
    if sends == [] then [] else Tag(sends[0].stream, sends[0].data) + Tagged(sends[1..])
  }

  lemma {:induction false} TaggedAppend(a: seq<Send>, b: seq<Send>)
    ensures Tagged(a + b) == Tagged(a) + Tagged(b)
  {
    if a == [] {
      assert a + b == b;
    } else {
      assert (a + b)[1..] == a[1..] + b;
      TaggedAppend(a[1..], b);
    }
  }

  lemma TaggedOne(send: Send)
    ensures Tagged([send]) == Tag(send.stream, send.data)
  {
    assert Tagged([send]) == Tag(send.stream, send.data) + [];
  }

  /** The bytes of one stream. */
  function Project(tagged: seq<TaggedByte>, s: nat): Bytes {
    if tagged == [] then []
    else (if tagged[0].0 == s then [tagged[0].1] else []) + Project(tagged[1..], s)
  }

  lemma {:induction false} ProjectAppend(a: seq<TaggedByte>, b: seq<TaggedByte>, s: nat)
    ensures Project(a + b, s) == Project(a, s) + Project(b, s)
  {
    if a == [] {
      assert a + b == b;
    } else {
      var head: Bytes := if a[0].0 == s then [a[0].1] else [];
      ProjectAppend(a[1..], b, s);
      calc {
        Project(a + b, s);
        { assert (a + b)[0] == a[0] && (a + b)[1..] == a[1..] + b; }
        head + Project(a[1..] + b, s);
        head + (Project(a[1..], s) + Project(b, s));
        (head + Project(a[1..], s)) + Project(b, s);
      }
    }
  }

  lemma {:induction false} ProjectTag(t: nat, data: Bytes, s: nat)
    ensures Project(Tag(t, data), s) == if t == s then data else []
  {
    if data == [] {
    } else {
      ProjectTag(t, data[1..], s);
      assert Tag(t, data)[1..] == Tag(t, data[1..]);
      assert data == [data[0]] + data[1..];
    }
  }

  lemma {:induction false} ProjectTagged(sends: seq<Send>, s: nat)
    ensures Project(Tagged(sends), s) == BytesFor(sends, s)
  {
    if sends == [] {
      BytesForNone(s);
    } else {
      ProjectTagged(sends[1..], s);
      ProjectTag(sends[0].stream, sends[0].data, s);
      ProjectAppend(Tag(sends[0].stream, sends[0].data), Tagged(sends[1..]), s);
      BytesForCons(sends, s);
    }
  }

  // ---------------------------------------------------------------- the connection

  /** Where the send thread is: waiting for work, writing a message of which `send` is the
      unwritten remainder, about to shut the write side down, or gone. */
  datatype SendThread = Waiting | Writing(send: Send) | AboutToShutDown | Gone

  /** The outcome of one sendmsg call. */
  datatype WriteResult = Written(n: nat) | Interrupted | Failed

  /** How many bytes a run of outcomes can take. */
  function Capacity(results: seq<WriteResult>): nat {
    if results == [] then 0
    else
      var last := results[|results| - 1];
      Capacity(results[..|results| - 1]) + if last.Written? then last.n else 0
  }

  /** What is left of a message after its first bytes have been written. */
  predicate IsRemainder(rest: Send, whole: Send) {
    rest.stream == whole.stream && |rest.data| <= |whole.data|
    && rest.data == whole.data[|whole.data| - |rest.data|..]
  }

  lemma SuffixIsRemainder(s: nat, data: Bytes, offset: nat)
    requires offset <= |data|
    ensures IsRemainder(Send(s, data[offset..]), Send(s, data))
  {
  }

  lemma Regroup(a: seq<TaggedByte>, b: seq<TaggedByte>, c: seq<TaggedByte>)
    ensures a + (b + c) == (a + b) + c
  {
  }

  lemma NoCapacity()
    ensures Capacity([]) == 0
  {
  }

  lemma OneMoreResult(results: seq<WriteResult>, i: nat)
    requires i < |results|
    ensures Capacity(results[..i + 1]) == Capacity(results[..i]) + if results[i].Written? then results[i].n else 0
  {
    assert results[..i + 1][..i] == results[..i];
  }

  lemma NothingLeft(s: nat)
    ensures Tagged([Send(s, [])]) == Tagged([])
  {
    TaggedOne(Send(s, []));
  }

  lemma NothingTagged(written: seq<Send>)
    ensures Tagged(written) + Tagged([]) == Tagged(written)
  {
  }

  /** Moving one piece from the remainder to the socket changes no byte and no order. */
  lemma OnePiece(written: seq<Send>, s: nat, data: Bytes, offset: nat, count: nat)
    requires offset + count <= |data|
    ensures Tagged(written + [Send(s, data[offset..offset + count])]) + Tagged([Send(s, data[offset + count..])])
         == Tagged(written) + Tagged([Send(s, data[offset..])])
  {
    hide Tagged;
    var piece, rest := data[offset..offset + count], data[offset + count..];
    TaggedAppend(written, [Send(s, piece)]);
    TaggedOne(Send(s, piece));
    TaggedOne(Send(s, rest));
    TaggedOne(Send(s, data[offset..]));
    assert Tag(s, data[offset..]) == Tag(s, piece) + Tag(s, rest);
  }

  class SctpConnection {
    var pendingSends: seq<Send>
    var closed: bool
    var sendClosed: bool
    var sendCloseRequested: bool
    var sendThread: SendThread
    /** The pieces the socket has taken, in order. */
    var written: seq<Send>
    var writeShutDown: bool
    /** Everything SendCopy has queued, and how much of it after CloseSend. */
    ghost var accepted: seq<Send>
    ghost var acceptedLate: nat

    function InHand(): seq<Send>
      reads this
    {
      if sendThread.Writing? then [sendThread.send] else []
    }

    /** First in, first out, nothing lost: what was written, the rest of the current message
        and the queue are everything accepted. A requested close waits for the queue. */
    ghost predicate Valid()
      reads this
    {
      && (!closed ==> Tagged(written) + Tagged(InHand()) + Tagged(pendingSends) == Tagged(accepted))
      && (sendCloseRequested ==> sendClosed)
      && (acceptedLate > 0 ==> sendClosed)
      && (sendThread.AboutToShutDown? || writeShutDown ==> sendCloseRequested)
      && (sendThread.AboutToShutDown? || writeShutDown ==> acceptedLate == 0 ==> pendingSends == [])
      && (writeShutDown ==> sendThread.Gone?)
      && (sendThread.Gone? ==> closed || writeShutDown)
    }

    constructor ()
      ensures Valid() && !closed && !sendClosed && !sendCloseRequested && sendThread == Waiting
      ensures pendingSends == [] && written == [] && accepted == [] && acceptedLate == 0
    {
      pendingSends, written, accepted, acceptedLate := [], [], [], 0;
      closed, sendClosed, sendCloseRequested, writeShutDown := false, false, false, false;
      sendThread := Waiting;
    }

    method SendCopy(data: Bytes, s: nat)
      requires Valid()
      modifies this`pendingSends, this`accepted, this`acceptedLate
      ensures Valid()
      ensures pendingSends == old(pendingSends) + if closed then [] else [Send(s, data)]
      ensures accepted == old(accepted) + if closed then [] else [Send(s, data)]
      ensures acceptedLate == old(acceptedLate) + if !closed && sendClosed then 1 else 0
    {
      hide Tagged;
      if closed {
        assert old(pendingSends) + [] == pendingSends && old(accepted) + [] == accepted;
        return;
      }
      TaggedAppend(pendingSends, [Send(s, data)]);
      TaggedAppend(accepted, [Send(s, data)]);
      Regroup(Tagged(written) + Tagged(InHand()), Tagged(pendingSends), Tagged([Send(s, data)]));
      pendingSends := pendingSends + [Send(s, data)];
      accepted := accepted + [Send(s, data)];
      acceptedLate := acceptedLate + if sendClosed then 1 else 0;
    }

    /** Only the first call asks the send thread to close. */
    method CloseSend()
      requires Valid()
      modifies this`sendClosed, this`sendCloseRequested
      ensures Valid() && sendClosed
      ensures sendCloseRequested == (old(sendCloseRequested) || (!old(sendClosed) && !closed))
    {
      if sendClosed {
        return;
      }
      sendClosed := true;
      if closed {
        return;
      }
      sendCloseRequested := true;
    }

    method Close()
      requires Valid()
      modifies this`closed
      ensures Valid() && closed
    {
      closed := true;
    }

    /** The locked region of the send loop, entered once its wait condition holds. */
    method TakeNext()
      requires Valid() && sendThread == Waiting
      requires closed || pendingSends != [] || sendCloseRequested
      modifies this`sendThread, this`pendingSends
      ensures Valid()
      ensures closed ==> sendThread == Gone && pendingSends == old(pendingSends)
      ensures !closed && old(pendingSends) != [] ==>
                sendThread == Writing(old(pendingSends)[0]) && pendingSends == old(pendingSends)[1..]
      ensures !closed && old(pendingSends) == [] ==> sendThread == AboutToShutDown && pendingSends == []
    {
      hide Tagged;
      if closed {
        sendThread := Gone;
      } else if pendingSends != [] {
        var rest := pendingSends[1..];
        assert pendingSends == [pendingSends[0]] + rest;
        TaggedAppend([pendingSends[0]], rest);
        Regroup(Tagged(written), Tagged([pendingSends[0]]), Tagged(rest));
        NothingTagged(written);
        sendThread, pendingSends := Writing(pendingSends[0]), pendingSends[1..];
      } else {
        sendThread := AboutToShutDown;
      }
    }

    /** SendBlocking against the given outcomes of sendmsg. It returns when the message is
        written out or a write fails; with too few outcomes it is still in the middle. */
    method SendBlocking(results: seq<WriteResult>)
      requires Valid() && sendThread.Writing?
      modifies this`sendThread, this`written, this`closed
      ensures Valid()
      ensures Tagged(written) + Tagged(InHand()) == Tagged(old(written)) + Tagged([old(sendThread).send])
              || sendThread == Gone
      ensures closed <==> old(closed) || sendThread == Gone
      ensures sendThread in {Waiting, Gone} || sendThread.Writing?
      ensures sendThread.Writing? ==> sendThread.send.data != [] && IsRemainder(sendThread.send, old(sendThread).send)
      ensures Failed !in results ==> sendThread != Gone
      ensures Failed !in results && Capacity(results) >= |old(sendThread).send.data| ==> sendThread == Waiting
    {
      hide Tagged, Capacity;
      var Send(s, data) := sendThread.send;
      var offset := 0;
      ghost var before := written;
      assert data[0..] == data;
      NoCapacity();
      for i := 0 to |results|
        invariant offset <= |data| && sendThread == Writing(Send(s, data[offset..])) && closed == old(closed)
        invariant Tagged(written) + Tagged(InHand()) == Tagged(before) + Tagged([Send(s, data)])
        invariant Valid()
        invariant offset == |data| || offset == Capacity(results[..i])
      {
        OneMoreResult(results, i);
        if offset == |data| {
          break;
        }
        match results[i] {
          case Interrupted =>
          case Failed =>
            closed, sendThread := true, Gone;
            return;
          case Written(n) =>
            var count := if offset + n <= |data| then n else |data| - offset;
            OnePiece(written, s, data, offset, count);
            written := written + [Send(s, data[offset..offset + count])];
            offset := offset + count;
            sendThread := Writing(Send(s, data[offset..]));
        }
      }
      assert results[..|results|] == results;
      SuffixIsRemainder(s, data, offset);
      if offset == |data| {
        assert data[offset..] == [];
        NothingLeft(s);
        sendThread := Waiting;
      }
    }

    /** The send thread's last act. */
    method ShutDownWrite()
      requires Valid() && sendThread == AboutToShutDown
      modifies this`sendThread, this`writeShutDown
      ensures Valid() && sendThread == Gone && writeShutDown
    {
      sendThread, writeShutDown := Gone, true;
    }

    /** Per stream, the bytes written, in hand and queued are the bytes accepted. */
    lemma StreamsStayInOrder(s: nat)
      requires Valid() && !closed
      ensures BytesFor(written, s) + BytesFor(InHand(), s) + BytesFor(pendingSends, s) == BytesFor(accepted, s)
    {
      ProjectTagged(written, s);
      ProjectTagged(InHand(), s);
      ProjectTagged(pendingSends, s);
      ProjectTagged(accepted, s);
      ProjectAppend(Tagged(written), Tagged(InHand()), s);
      ProjectAppend(Tagged(written) + Tagged(InHand()), Tagged(pendingSends), s);
    }

    /** If nothing was sent after CloseSend, the write side is shut down only when every
        accepted byte has been written. */
    lemma ShutDownIsComplete()
      requires Valid() && !closed && writeShutDown && acceptedLate == 0
      ensures Tagged(written) == Tagged(accepted)
    {
      assert Tagged(written) + [] + [] == Tagged(written);
    }
  }
}
