/** The send side of a connection and the protocol machine, step by step: whatever the machine
    does, the object's own method does the same to the queue, the message in hand, the bytes
    written and the closing of the send side. */
module SendSide {
  import opened Wire
  import opened Reassembly
  import opened Transport
  import opened Window
  import P = Pipeline
  import I = PipelineInvariant
  import S = SctpConnections

  /** The message the send thread has in hand. */
  function InHand(hand: S.SendThread): Option<Send> {
    if hand.Writing? then Some(hand.send) else None
  }

  /** A connection's send side and a link carry the same: the queue, the message in hand,
      and per stream the bytes written, of which `delivered` have reached the receiver. */
  ghost predicate Carries(link: Link, queue: seq<Send>, hand: S.SendThread, written: seq<Send>, delivered: seq<Bytes>) {
    && link.queue == queue && link.current == InHand(hand) && |delivered| == |link.channels|
    && forall s | 0 <= s < |delivered| :: BytesFor(written, s) == delivered[s] + link.channels[s]
  }

  /** The connection follows the machine: it is open and carries the same, CloseSend has been
      called on both or neither, likewise the shutdown, and nothing came after CloseSend. */
  ghost predicate Follows(c: S.SctpConnection, cfg: P.Config, st: P.State, delivered: seq<Bytes>)
    reads c
  {
    && I.Inv(cfg, st) && c.Valid() && !c.closed
    && Carries(st.forward, c.pendingSends, c.sendThread, c.written, delivered)
    && (c.sendClosed <==> st.closeCalls > 0) && (c.sendCloseRequested <==> st.closeCalls > 0)
    && (c.writeShutDown <==> st.finSent) && c.acceptedLate == 0
  }

  lemma ForwardShape(cfg: P.Config, st: P.State)
    requires I.Inv(cfg, st)
    ensures LinkShape(st.forward, |st.streams|)
  {
    hide I.ViewsOk, I.Discipline, I.Closing;
  }

  /** A new connection follows the machine's initial state. */
  method Connect(ghost cfg: P.Config, ghost now: nat) returns (c: S.SctpConnection)
    requires P.ValidConfig(cfg) && now < TWO_TO_64
    ensures fresh(c) && Follows(c, cfg, P.InitialState(cfg, now), seq(|cfg.profiles|, _ => []))
  {
    hide I.Inv;
    I.InitialInv(cfg, now);
    c := new S.SctpConnection();
  }

  /** What thread `t` is about to submit, stamped now. */
  ghost predicate IsNext(st: P.State, t: P.ThreadId, send: Send) {
    && st.threads.At(t).Submitting? && st.threads.At(t).sends != []
    && var first := st.threads.At(t).sends[0];
       |first.data| >= HEADER_SIZE && send == Send(first.stream, Stamp(first.data, st.now))
  }

  /** Submit: the message goes to SendCopy, which has not been closed. */
  method Submit(c: S.SctpConnection, send: Send, ghost cfg: P.Config, ghost st: P.State, ghost t: P.ThreadId,
                ghost delivered: seq<Bytes>)
    requires Follows(c, cfg, st, delivered) && P.Enabled(cfg, st, P.Submit(t)) && IsNext(st, t, send)
    modifies c
    ensures Follows(c, cfg, P.Apply(cfg, st, P.Submit(t)), delivered) && c.accepted == old(c.accepted) + [send]
  {
    hide I.Inv, P.Shape, S.Tagged, BytesFor, Stamp;
    I.SubmittingIsSafe(cfg, st, t);
    I.StepKeepsInv(cfg, st, P.Submit(t));
    c.SendCopy(send.data, send.stream);
  }

  /** FinishPump: CloseSend is called exactly when the PumpSends call has decided to. */
  method FinishPump(c: S.SctpConnection, closing: bool, ghost cfg: P.Config, ghost st: P.State, ghost t: P.ThreadId,
                    ghost delivered: seq<Bytes>)
    requires Follows(c, cfg, st, delivered) && P.Enabled(cfg, st, P.FinishPump(t))
    requires closing == st.threads.At(t).closing
    modifies c
    ensures Follows(c, cfg, P.Apply(cfg, st, P.FinishPump(t)), delivered) && c.accepted == old(c.accepted)
  {
    hide I.Inv, P.Shape, S.Tagged, BytesFor;
    I.StepKeepsInv(cfg, st, P.FinishPump(t));
    if closing {
      c.CloseSend();
    }
  }

  /** A woken send thread: with a message queued ClientDequeue, and otherwise it is about to
      shut the write side down. */
  method TakeNext(c: S.SctpConnection, ghost cfg: P.Config, ghost st: P.State, ghost delivered: seq<Bytes>)
    requires Follows(c, cfg, st, delivered)
    requires c.sendThread == S.Waiting && (c.pendingSends != [] || c.sendCloseRequested)
    modifies c
    ensures old(c.pendingSends) != [] ==>
              P.Enabled(cfg, st, P.ClientDequeue) && Follows(c, cfg, P.Apply(cfg, st, P.ClientDequeue), delivered)
    ensures old(c.pendingSends) == [] ==> c.sendThread == S.AboutToShutDown && Follows(c, cfg, st, delivered)
  {
    hide I.ViewsOk, I.Discipline, I.Closing, P.Shape, S.Tagged, BytesFor;
    if c.pendingSends != [] {
      I.StepKeepsInv(cfg, st, P.ClientDequeue);
    }
    c.TakeNext();
  }

  lemma SameFront(a: Bytes, b: Bytes, tail: Bytes)
    requires a + tail == b + tail
    ensures a == b
  {
    assert |a| == |a + tail| - |tail| == |b + tail| - |tail| == |b|;
    assert a == (a + tail)[..|a|] && b == (b + tail)[..|b|];
  }

  lemma StreamBytes(a: seq<Send>, x: Send, b: seq<Send>, y: Send, s: nat)
    requires S.Tagged(b) + S.Tagged([y]) == S.Tagged(a) + S.Tagged([x])
    ensures BytesFor(b, s) + BytesFor([y], s) == BytesFor(a, s) + BytesFor([x], s)
  {
    hide S.Tagged, BytesFor;
    S.ProjectTagged(a, s);
    S.ProjectTagged(b, s);
    S.ProjectTagged([x], s);
    S.ProjectTagged([y], s);
    S.ProjectAppend(S.Tagged(a), S.Tagged([x]), s);
    S.ProjectAppend(S.Tagged(b), S.Tagged([y]), s);
  }

  lemma FrontWritten(delivered: Bytes, channel: Bytes, data: Bytes, n: nat, written: Bytes)
    requires n <= |data| && written + data[n..] == (delivered + channel) + data
    ensures written == delivered + (channel + data[..n])
  {
    assert data == data[..n] + data[n..];
    assert (delivered + channel) + data == (delivered + (channel + data[..n])) + data[n..];
    SameFront(written, delivered + (channel + data[..n]), data[n..]);
  }

  lemma WriteBytesMeans(link: Link, n: nat)
    requires link.current.Some? && link.current.value.stream < |link.channels|
    requires 0 < n <= |link.current.value.data|
    ensures var Send(s, data) := link.current.value;
            WriteBytes(link, n) == Link(link.queue, if n == |data| then None else Some(Send(s, data[n..])),
                                        link.channels[s := link.channels[s] + data[..n]])
  {
  }

  /** A SendBlocking that has left `rest` of its message unwritten is one WriteBytes of the
      bytes before it, however many calls and pieces they took. */
  lemma SendBlockingIsWriteBytes(link: Link, queue: seq<Send>, whole: Send, written: seq<Send>, delivered: seq<Bytes>,
                                 rest: Send, hand: S.SendThread, written': seq<Send>)
    requires Carries(link, queue, S.Writing(whole), written, delivered) && whole.stream < |link.channels|
    requires S.IsRemainder(rest, whole) && |rest.data| < |whole.data|
    // what SendBlocking promises
    requires hand == if rest.data == [] then S.Waiting else S.Writing(rest)
    requires S.Tagged(written') + S.Tagged([rest]) == S.Tagged(written) + S.Tagged([whole])
    ensures Carries(WriteBytes(link, |whole.data| - |rest.data|), queue, hand, written', delivered)
  {
    hide S.Tagged, BytesFor, WriteBytes;
    var n := |whole.data| - |rest.data|;
    var link' := WriteBytes(link, n);
    assert link'.queue == queue && link'.current == InHand(hand) && link'.channels
        == link.channels[whole.stream := link.channels[whole.stream] + whole.data[..n]] by {
      WriteBytesMeans(link, n);
    }
    forall s | 0 <= s < |delivered|
      ensures BytesFor(written', s) == delivered[s] + link'.channels[s]
    {
      StreamBytes(written, whole, written', rest, s);
      BytesForOne(whole, s);
      BytesForOne(rest, s);
      if s == whole.stream {
        FrontWritten(delivered[s], link.channels[s], whole.data, n, BytesFor(written', s));
      } else {
        SameFront(BytesFor(written', s), BytesFor(written, s), []);
      }
    }
  }

  lemma NothingWritten(link: Link, queue: seq<Send>, whole: Send, written: seq<Send>, delivered: seq<Bytes>,
                       hand: S.SendThread, written': seq<Send>)
    requires Carries(link, queue, S.Writing(whole), written, delivered) && hand == S.Writing(whole)
    requires S.Tagged(written') + S.Tagged([whole]) == S.Tagged(written) + S.Tagged([whole])
    ensures Carries(link, queue, hand, written', delivered)
  {
    hide S.Tagged, BytesFor;
    forall s | 0 <= s < |delivered|
      ensures BytesFor(written', s) == delivered[s] + link.channels[s]
    {
      StreamBytes(written, whole, written', whole, s);
      SameFront(BytesFor(written', s), BytesFor(written, s), BytesFor([whole], s));
    }
  }

  lemma WritingIsFollowed(c: S.SctpConnection, cfg: P.Config, st: P.State, delivered: seq<Bytes>, whole: Send,
                          written: seq<Send>, rest: Send)
    requires I.Inv(cfg, st) && c.Valid() && !c.closed
    requires Carries(st.forward, c.pendingSends, S.Writing(whole), written, delivered)
    requires (c.sendClosed <==> st.closeCalls > 0) && (c.sendCloseRequested <==> st.closeCalls > 0)
    requires (c.writeShutDown <==> st.finSent) && c.acceptedLate == 0 && !st.finSent
    requires S.IsRemainder(rest, whole) && |rest.data| < |whole.data|
    requires c.sendThread == if rest.data == [] then S.Waiting else S.Writing(rest)
    requires S.Tagged(c.written) + S.Tagged([rest]) == S.Tagged(written) + S.Tagged([whole])
    ensures var a := P.ClientWrite(|whole.data| - |rest.data|);
            P.Enabled(cfg, st, a) && Follows(c, cfg, P.Apply(cfg, st, a), delivered)
  {
    hide I.ViewsOk, I.Discipline, I.Closing, S.Tagged, BytesFor, P.SendsShape;
    SendBlockingIsWriteBytes(st.forward, c.pendingSends, whole, written, delivered, rest, c.sendThread, c.written);
    I.StepKeepsInv(cfg, st, P.ClientWrite(|whole.data| - |rest.data|));
  }

  lemma StandingStillIsFollowed(c: S.SctpConnection, cfg: P.Config, st: P.State, delivered: seq<Bytes>, whole: Send,
                                written: seq<Send>)
    requires I.Inv(cfg, st) && c.Valid() && !c.closed && c.sendThread == S.Writing(whole)
    requires Carries(st.forward, c.pendingSends, S.Writing(whole), written, delivered)
    requires (c.sendClosed <==> st.closeCalls > 0) && (c.sendCloseRequested <==> st.closeCalls > 0)
    requires (c.writeShutDown <==> st.finSent) && c.acceptedLate == 0
    requires S.Tagged(c.written) + S.Tagged([whole]) == S.Tagged(written) + S.Tagged([whole])
    ensures Follows(c, cfg, st, delivered)
  {
    hide I.Inv, S.Tagged, Carries, S.SctpConnection.Valid;
    NothingWritten(st.forward, c.pendingSends, whole, written, delivered, c.sendThread, c.written);
  }

  lemma RestOfWhole(rest: Send, whole: Send)
    requires S.IsRemainder(rest, whole) || rest == Send(whole.stream, [])
    ensures S.IsRemainder(rest, whole) && |rest.data| <= |whole.data|
    ensures |rest.data| == |whole.data| ==> rest == whole
  {
    assert whole.data[0..] == whole.data;
    assert whole.data[|whole.data|..] == [];
  }

  /** Everything of the message has been written. */
  lemma FinishedIsFollowed(c: S.SctpConnection, cfg: P.Config, st: P.State, delivered: seq<Bytes>, whole: Send,
                           written: seq<Send>)
    requires I.Inv(cfg, st) && c.Valid() && !c.closed && whole.data != [] && c.sendThread == S.Waiting
    requires Carries(st.forward, c.pendingSends, S.Writing(whole), written, delivered)
    requires (c.sendClosed <==> st.closeCalls > 0) && (c.sendCloseRequested <==> st.closeCalls > 0)
    requires (c.writeShutDown <==> st.finSent) && c.acceptedLate == 0 && !st.finSent
    requires S.Tagged(c.written) + S.Tagged([]) == S.Tagged(written) + S.Tagged([whole])
    ensures var a := P.ClientWrite(|whole.data|);
            P.Enabled(cfg, st, a) && Follows(c, cfg, P.Apply(cfg, st, a), delivered)
  {
    hide I.Inv, P.Enabled, P.Apply, S.Tagged, Carries, S.SctpConnection.Valid, Follows;
    RestOfWhole(Send(whole.stream, []), whole);
    S.NothingLeft(whole.stream);
    WritingIsFollowed(c, cfg, st, delivered, whole, written, Send(whole.stream, []));
  }

  lemma MessageInHand(c: S.SctpConnection, cfg: P.Config, st: P.State, delivered: seq<Bytes>)
    requires Follows(c, cfg, st, delivered) && c.sendThread.Writing?
    ensures !st.finSent && c.sendThread.send.data != []
  {
    hide I.Inv, S.Tagged, BytesFor;
    ForwardShape(cfg, st);
  }

  /** SendBlocking: unless a write fails, whatever pieces it has written are one ClientWrite of
      the same bytes, or none. */
  method SendBlocking(c: S.SctpConnection, results: seq<S.WriteResult>, ghost cfg: P.Config, ghost st: P.State,
                      ghost delivered: seq<Bytes>) returns (ghost n: nat)
    requires Follows(c, cfg, st, delivered) && c.sendThread.Writing?
    modifies c
    ensures S.Failed !in results ==> !c.closed
    ensures !c.closed && n == 0 ==> Follows(c, cfg, st, delivered)
    ensures !c.closed && n > 0 ==>
              P.Enabled(cfg, st, P.ClientWrite(n)) && Follows(c, cfg, P.Apply(cfg, st, P.ClientWrite(n)), delivered)
    ensures S.Failed !in results && S.Capacity(results) >= |old(c.sendThread).send.data| ==>
              n == |old(c.sendThread).send.data| && c.sendThread == S.Waiting
  {
    hide I.Inv, P.Enabled, P.Apply, S.Tagged, S.Capacity, Carries, S.SctpConnection.Valid,
        BytesFor, WriteBytes;
    MessageInHand(c, cfg, st, delivered);
    ghost var whole, written := c.sendThread.send, c.written;
    c.SendBlocking(results);
    n := 0;
    if c.sendThread == S.Waiting {
      FinishedIsFollowed(c, cfg, st, delivered, whole, written);
      n := |whole.data|;
    } else if !c.closed {
      ghost var rest := c.sendThread.send;
      RestOfWhole(rest, whole);
      if |rest.data| < |whole.data| {
        WritingIsFollowed(c, cfg, st, delivered, whole, written, rest);
        n := |whole.data| - |rest.data|;
      } else {
        StandingStillIsFollowed(c, cfg, st, delivered, whole, written);
      }
    }
  }

  /** ShutDownWrite: a send thread about to shut down has an idle link behind it and a
      CloseSend call before it, so the machine's ShutdownWrite is enabled. */
  method ShutDownWrite(c: S.SctpConnection, ghost cfg: P.Config, ghost st: P.State, ghost delivered: seq<Bytes>)
    requires Follows(c, cfg, st, delivered) && c.sendThread == S.AboutToShutDown
    modifies c
    ensures P.Enabled(cfg, st, P.ShutdownWrite)
    ensures Follows(c, cfg, P.Apply(cfg, st, P.ShutdownWrite), delivered)
    ensures S.Tagged(c.written) == S.Tagged(c.accepted)
  {
    hide I.ViewsOk, I.Discipline, I.Closing, P.Shape, BytesFor, S.Tagged;
    I.StepKeepsInv(cfg, st, P.ShutdownWrite);
    c.ShutDownWrite();
    c.ShutDownIsComplete();
  }

  lemma ServingDelivers(cfg: P.Config, st: P.State, s: nat, n: nat)
    requires P.Enabled(cfg, st, P.DeliverToServer(s, n)) && I.Inv(cfg, st)
    ensures s < |st.forward.channels| && n <= |st.forward.channels[s]|
    ensures var st' := P.Apply(cfg, st, P.DeliverToServer(s, n));
            st'.forward == Deliver(st.forward, s, n) && st'.closeCalls == st.closeCalls && st'.finSent == st.finSent
  {
    hide I.Inv, P.SendsShape;
  }

  /** The transport takes bytes off the link. */
  lemma DeliveryIsFollowed(c: S.SctpConnection, cfg: P.Config, st: P.State, delivered: seq<Bytes>, s: nat, n: nat)
    requires Follows(c, cfg, st, delivered) && P.Enabled(cfg, st, P.DeliverToServer(s, n))
    ensures s < |delivered| && n <= |st.forward.channels[s]|
    ensures Follows(c, cfg, P.Apply(cfg, st, P.DeliverToServer(s, n)),
                    delivered[s := delivered[s] + st.forward.channels[s][..n]])
  {
    hide I.Inv, S.Tagged, BytesFor, P.Enabled, P.Apply;
    I.StepKeepsInv(cfg, st, P.DeliverToServer(s, n));
    ServingDelivers(cfg, st, s, n);
    assert |st.forward.channels| == |delivered|;
    forall o | 0 <= o < |delivered|
      ensures var kept := if o == s then st.forward.channels[s][n..] else st.forward.channels[o];
              var got := if o == s then delivered[s] + st.forward.channels[s][..n] else delivered[o];
              BytesFor(c.written, o) == got + kept
    {
      if o == s {
        var channel := st.forward.channels[s];
        assert channel == channel[..n] + channel[n..];
        assert (delivered[s] + channel[..n]) + channel[n..] == delivered[s] + channel;
      }
    }
  }

  /** No other action has to do with the send side. */
  lemma OthersLeaveItAlone(c: S.SctpConnection, cfg: P.Config, st: P.State, delivered: seq<Bytes>, a: P.Action)
    requires Follows(c, cfg, st, delivered) && P.Enabled(cfg, st, a)
    requires !a.Submit? && !a.FinishPump? && !a.ClientDequeue? && !a.ClientWrite? && !a.ShutdownWrite?
    requires !a.DeliverToServer?
    ensures Follows(c, cfg, P.Apply(cfg, st, a), delivered)
  {
    hide I.Inv, S.Tagged, BytesFor;
    I.StepKeepsInv(cfg, st, a);
  }
}
