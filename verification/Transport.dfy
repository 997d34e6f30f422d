/** One direction of a connection: the send queue, the message being written, and the
    ordered byte channel of each stream. */
module Transport {
  import opened Wire
  import opened Reassembly

  /** A queued message: the stream it goes to and its bytes. */
  datatype Send = Send(stream: nat, data: Bytes)

  function DataFor(sends: seq<Send>, s: nat): seq<Bytes> {
    if sends == [] then []
    else (if sends[0].stream == s then [sends[0].data] else []) + DataFor(sends[1..], s)
  }

  function BytesFor(sends: seq<Send>, s: nat): Bytes {
    Concat(DataFor(sends, s))
  }

  lemma {:induction false} DataForAppend(a: seq<Send>, b: seq<Send>, s: nat)
    ensures DataFor(a + b, s) == DataFor(a, s) + DataFor(b, s)
  {
    if a == [] {
      assert a + b == b;
    } else {
      assert (a + b)[1..] == a[1..] + b;
      DataForAppend(a[1..], b, s);
    }
  }

  lemma BytesForAppend(a: seq<Send>, b: seq<Send>, s: nat)
    ensures BytesFor(a + b, s) == BytesFor(a, s) + BytesFor(b, s)
  {
    DataForAppend(a, b, s);
    ConcatAppend(DataFor(a, s), DataFor(b, s));
  }

  function BytesOfSend(send: Send, s: nat): Bytes {
    if send.stream == s then send.data else []
  }

  lemma BytesForOne(send: Send, s: nat)
    ensures BytesFor([send], s) == BytesOfSend(send, s)
  {
    assert DataFor([send], s) == if send.stream == s then [send.data] else [];
    assert Concat([send.data]) == send.data + [] == send.data;
  }

  lemma BytesForNone(s: nat)
    ensures BytesFor([], s) == []
  {
  }

  lemma BytesForSnoc(sends: seq<Send>, send: Send, s: nat)
    ensures BytesFor(sends + [send], s) == BytesFor(sends, s) + BytesOfSend(send, s)
  {
    BytesForAppend(sends, [send], s);
    BytesForOne(send, s);
  }

  lemma BytesForCons(sends: seq<Send>, s: nat)
    requires sends != []
    ensures BytesFor(sends, s) == BytesOfSend(sends[0], s) + BytesFor(sends[1..], s)
  {
    assert sends == [sends[0]] + sends[1..];
    BytesForAppend([sends[0]], sends[1..], s);
    BytesForOne(sends[0], s);
  }

  /** The messages that echo `frames` on stream `s`. */
  function OnStream(frames: seq<Bytes>, s: nat): (sends: seq<Send>)
    ensures |sends| == |frames|
  {
    seq(|frames|, i requires 0 <= i < |frames| => Send(s, frames[i]))
  }

  // ---------------------------------------------------------------- links

  datatype Link = Link(queue: seq<Send>, current: Option<Send>, channels: seq<Bytes>)

  function EmptyLink(streams: nat): Link {
    Link([], None, seq(streams, _ => []))
  }

  predicate Busy(link: Link) { link.current.Some? || link.queue != [] }

  function CurrentSends(link: Link): seq<Send> {
    match link.current
    case None => []
    case Some(send) => [send]
  }

  predicate LinkShape(link: Link, streams: nat) {
    && |link.channels| == streams
    && (forall i | 0 <= i < |link.queue| :: link.queue[i].stream < streams && link.queue[i].data != [])
    && (link.current.Some? ==> link.current.value.stream < streams && link.current.value.data != [])
  }

  /** Everything of stream `s` handed to this direction and not yet delivered, in order. */
  function InFlight(link: Link, s: nat): Bytes
    requires s < |link.channels|
  {
    link.channels[s] + BytesFor(CurrentSends(link), s) + BytesFor(link.queue, s)
  }

  /** SendCopy: append to the queue. */
  function Enqueue(link: Link, send: Send): Link {
    link.(queue := link.queue + [send])
  }

  /** SendLoop: take the front message. */
  function Dequeue(link: Link): Link
    requires link.current.None? && link.queue != []
  {
    link.(queue := link.queue[1..], current := Some(link.queue[0]))
  }

  /** SendBlocking: one successful write of `n` bytes. */
  function WriteBytes(link: Link, n: nat): Link
    requires link.current.Some? && link.current.value.stream < |link.channels|
    requires 0 < n <= |link.current.value.data|
  {
    var Send(s, data) := link.current.value;
    Link(link.queue,
         if n == |data| then None else Some(Send(s, data[n..])),
         link.channels[s := link.channels[s] + data[..n]])
  }

  /** The transport hands the first `n` bytes of stream `s` to the receiver. */
  function Deliver(link: Link, s: nat, n: nat): Link
    requires s < |link.channels| && n <= |link.channels[s]|
  {
    link.(channels := link.channels[s := link.channels[s][n..]])
  }

  lemma EnqueueEffect(link: Link, send: Send, s: nat)
    requires s < |link.channels|
    ensures InFlight(Enqueue(link, send), s) == InFlight(link, s) + BytesOfSend(send, s)
  {
    BytesForSnoc(link.queue, send, s);
    assert CurrentSends(Enqueue(link, send)) == CurrentSends(link);
  }

  lemma DequeueEffect(link: Link, s: nat)
    requires link.current.None? && link.queue != [] && s < |link.channels|
    ensures InFlight(Dequeue(link), s) == InFlight(link, s)
  {
    BytesForCons(link.queue, s);
    BytesForOne(link.queue[0], s);
  }

  lemma WriteEffect(link: Link, n: nat, s: nat)
    requires link.current.Some? && link.current.value.stream < |link.channels| && s < |link.channels|
    requires 0 < n <= |link.current.value.data|
    ensures InFlight(WriteBytes(link, n), s) == InFlight(link, s)
  {
    hide Concat;
    var send := link.current.value;
    BytesForOne(send, s);
    BytesForNone(s);
    var link' := WriteBytes(link, n);
    if n < |send.data| {
      BytesForOne(Send(send.stream, send.data[n..]), s);
    }
    if s == send.stream {
      assert send.data == send.data[..n] + send.data[n..];
      assert BytesFor(CurrentSends(link'), s) == send.data[n..];
    }
  }

  lemma DeliverEffect(link: Link, t: nat, n: nat, s: nat)
    requires t < |link.channels| && s < |link.channels| && n <= |link.channels[t]|
    ensures s != t ==> InFlight(Deliver(link, t, n), s) == InFlight(link, s)
    ensures s == t ==> InFlight(link, s) == link.channels[t][..n] + InFlight(Deliver(link, t, n), s)
  {
    if s == t {
      var c, c' := link.channels[t][..n], link.channels[t][n..];
      assert link.channels[t] == c + c';
    }
  }
}
