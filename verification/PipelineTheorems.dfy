/** What the invariant means for whole runs of a connection. */
module PipelineTheorems {
  import opened Wire
  import opened Reassembly
  import opened Transport
  import opened Window
  import opened Pipeline
  import opened PipelineInvariant

  /** The frames of stream `s` handed to the transport so far, with their final stamps. */
  function SubmittedFrames(cfg: Config, st: State, s: nat): seq<Bytes>
    requires ValidConfig(cfg) && Shape(cfg, st) && s < |st.streams|
  {
    BuiltFrames(cfg.profiles[s].messageSize, st.streams[s].stamps)
  }

  /** Every byte of stream `s` between the client's consumption and the client's queue, in
      the order in which it will reach the client. */
  function UnderWay(cfg: Config, st: State, s: nat): Bytes
    requires Shape(cfg, st) && s < |st.streams|
  {
    st.streams[s].receiveBuffer
    + InFlight(st.backward, s) + BytesFor(st.serverSends, s)
    + st.serverBuffers[s] + InFlight(st.forward, s)
  }

  lemma SplitAt(frames: seq<Bytes>, c: nat)
    requires c <= |frames|
    ensures Concat(frames) == Concat(frames[..c]) + Concat(frames[c..])
  {
    hide Concat;
    ConcatAppend(frames[..c], frames[c..]);
    assert frames == frames[..c] + frames[c..];
  }

  lemma SplitConcat(frames: seq<Bytes>, c: nat, d: nat)
    requires c <= d <= |frames|
    ensures Concat(frames) == Concat(frames[..c]) + Concat(frames[c..d]) + Concat(frames[d..])
  {
    hide Concat;
    SplitAt(frames, d);
    SplitAt(frames[..d], c);
    assert frames[..d][..c] == frames[..c] && frames[..d][c..] == frames[c..d];
  }

  lemma Regroup(a: Bytes, b: Bytes, c: Bytes, d: Bytes, e: Bytes, f: Bytes)
    ensures a + (b + c + d + e + f) == a + (b + (c + d)) + (e + f)
  {
  }

  /** Conservation: consumed frames, then everything under way, are exactly the submitted
      frames; the frames not yet submitted continue the numbering without a gap, and the
      stream's counters count all of them. */
  lemma PipelineConservation(cfg: Config, st: State, s: nat)
    requires Reachable(cfg, st) && ValidConfig(cfg) && s < |cfg.profiles|
    ensures Shape(cfg, st)
    ensures Concat(st.streams[s].consumed) + UnderWay(cfg, st, s) == Concat(SubmittedFrames(cfg, st, s))
    ensures var x, local := st.streams[s], DataFor(LocalSends(cfg, st), s);
            && Numbered(local, |x.stamps|, cfg.profiles[s].messageSize)
            && x.counters == Counters((|x.stamps| + |local|) % TWO_TO_64, |x.consumed| % TWO_TO_64)
  {
    hide Reachable, InFlight, BytesFor, Concat, TryPeekFrameSize, Numbered;
    ReachableInv(cfg, st);
    var v := ViewOf(cfg, st, s);
    assert ViewOk(cfg.profiles[s], cfg.serverMessageSize, st.now, v);
    SplitConcat(SubmittedFrames(cfg, st, s), |v.x.consumed|, v.x.served);
    Regroup(Concat(v.x.consumed), v.x.receiveBuffer, InFlight(st.backward, s), BytesFor(st.serverSends, s),
            v.serverBuffer, v.outgoing);
  }

  /** The k-th echo the client consumes is the frame built k-th, and carries sequence
      number k, although the client never looks at it. */
  lemma EchoesComeInOrder(cfg: Config, st: State, s: nat, k: nat)
    requires Reachable(cfg, st) && ValidConfig(cfg) && s < |cfg.profiles|
    requires s < |st.streams| && k < |st.streams[s].consumed|
    ensures var x := st.streams[s];
            && k < |x.stamps|
            && x.consumed[k] == Frame(k, cfg.profiles[s].messageSize, x.stamps[k])
            && ReadHeader(x.consumed[k]) == Header(MESSAGE_MAGIC, cfg.profiles[s].messageSize, k % TWO_TO_64,
                x.stamps[k])
  {
    hide Reachable, TryPeekFrameSize, Numbered, InFlight, Concat, Frame, ReadHeader;
    ReachableInv(cfg, st);
    var x := st.streams[s];
    var size := cfg.profiles[s].messageSize;
    assert ViewOk(cfg.profiles[s], cfg.serverMessageSize, st.now, ViewOf(cfg, st, s));
    assert x.consumed[k] == BuiltFrames(size, x.stamps)[k];
    PeekFrame(k, size, x.stamps[k], [], size);
    assert Frame(k, size, x.stamps[k]) + [] == Frame(k, size, x.stamps[k]);
  }

  /** The window: at most `maxInflight` built messages are not yet echoed, and the unsigned
      subtraction the code performs is that number, even after the counters wrap. */
  lemma WindowIsRespected(cfg: Config, st: State, s: nat)
    requires Reachable(cfg, st) && ValidConfig(cfg) && s < |cfg.profiles|
    ensures Shape(cfg, st)
    ensures var x := st.streams[s];
            var built := |x.stamps| + |DataFor(LocalSends(cfg, st), s)|;
            && 0 <= built - |x.consumed| <= cfg.profiles[s].maxInflight
            && Outstanding(x.counters) == built - |x.consumed|
  {
    hide Reachable, TryPeekFrameSize, Numbered, InFlight, Concat;
    ReachableInv(cfg, st);
    var x := st.streams[s];
    assert ViewOk(cfg.profiles[s], cfg.serverMessageSize, st.now, ViewOf(cfg, st, s));
    TrackedWindow(cfg.profiles[s], x.counters, |x.stamps|, |x.consumed|, DataFor(LocalSends(cfg, st), s));
  }

  /** Recorded latencies are real: stamp plus latency never exceeds the clock. */
  lemma LatenciesDoNotWrap(cfg: Config, st: State, s: nat, k: nat)
    requires Reachable(cfg, st) && ValidConfig(cfg) && s < |cfg.profiles|
    requires s < |st.streams| && k < |st.streams[s].consumed|
    ensures var x := st.streams[s];
            |x.latencies| == |x.consumed| <= |x.stamps| && x.stamps[k] + x.latencies[k] <= st.now
  {
    hide Reachable, PositionsOk, Tracks, InFlight, Concat;
    ReachableInv(cfg, st);
    assert ViewOk(cfg.profiles[s], cfg.serverMessageSize, st.now, ViewOf(cfg, st, s));
  }

  /** The same frames reach the client's counters as reach its queues: nothing is left in
      any queue, buffer, channel or local list of either side. */
  ghost predicate NothingUnderWay(cfg: Config, st: State) {
    && Shape(cfg, st)
    && !Busy(st.forward) && !Busy(st.backward)
    && st.serverSends == [] && LocalSends(cfg, st) == []
    && forall s | 0 <= s < |st.streams| ::
         && st.forward.channels[s] == [] && st.backward.channels[s] == []
         && st.serverBuffers[s] == [] && st.streams[s].receiveBuffer == []
  }

  /** With every stream drained, every message ever built has been echoed and consumed, and
      nothing is under way in either direction. */
  lemma DrainedLosesNothing(cfg: Config, st: State)
    requires Inv(cfg, st) && Drained(st.streams)
    ensures NothingUnderWay(cfg, st)
    ensures forall s | 0 <= s < |cfg.profiles| ::
              st.streams[s].consumed == SubmittedFrames(cfg, st, s)
  {
    hide TryPeekFrameSize, Numbered, InFlight, Concat;
    DrainedIsEmpty(cfg, st);
    forall s | 0 <= s < |cfg.profiles|
      ensures st.streams[s].consumed == SubmittedFrames(cfg, st, s)
      ensures st.serverBuffers[s] == []
    {
      assert ViewOk(cfg.profiles[s], cfg.serverMessageSize, st.now, ViewOf(cfg, st, s));
      assert ViewOf(cfg, st, s).serverBuffer == [];
    }
  }

  /** When PumpSends has decided to close, every message ever built has been echoed and
      consumed, and nothing is under way in either direction. */
  lemma DrainLosesNothing(cfg: Config, st: State)
    requires Reachable(cfg, st) && ValidConfig(cfg) && st.sendClosed
    ensures NothingUnderWay(cfg, st)
    ensures forall s | 0 <= s < |cfg.profiles| ::
              st.streams[s].consumed == SubmittedFrames(cfg, st, s)
  {
    hide Reachable, ViewsOk, Discipline, NothingUnderWay, SubmittedFrames;
    ReachableInv(cfg, st);
    DrainedLosesNothing(cfg, st);
  }

  /** The server sees end-of-file only when it holds no echo, so closing at once discards
      none. */
  lemma EndOfFileDiscardsNothing(cfg: Config, st: State)
    requires Reachable(cfg, st) && Enabled(cfg, st, ServerEndOfFile)
    ensures NothingUnderWay(cfg, st) && st.sendClosed
  {
    hide Reachable, ViewsOk, Discipline, Shape, NothingUnderWay;
    ReachableInv(cfg, st);
    DrainLosesNothing(cfg, st);
  }

  /** The write side is shut down only with nothing left to write, and no thread will submit
      another frame. */
  lemma ShutdownAfterEverythingIsWritten(cfg: Config, st: State, t: ThreadId)
    requires Reachable(cfg, st) && ValidConfig(cfg)
    requires st.finSent || Enabled(cfg, st, ShutdownWrite)
    ensures NothingUnderWay(cfg, st) && !Enabled(cfg, st, Submit(t))
  {
    hide Reachable, ViewsOk, Discipline, Shape, NothingUnderWay;
    ReachableInv(cfg, st);
    DrainLosesNothing(cfg, st);
    if Enabled(cfg, st, Submit(t)) {
      SubmittingIsSafe(cfg, st, t);
    }
  }

  // ---------------------------------------------------------------- half-close

  lemma StepKeepsClosed(cfg: Config, st: State, a: Action)
    requires Enabled(cfg, st, a)
    ensures st.sendClosed ==> Apply(cfg, st, a).sendClosed
    ensures st.closeCalls <= Apply(cfg, st, a).closeCalls
  {
    hide Shape, ValidPicks, EchoParse, Readings, PumpApply, SubmitApply, ServeApply, EchoApply, Enqueue, Dequeue,
        WriteBytes;
  }

  lemma {:induction false} ClosedStaysClosed(cfg: Config, states: seq<State>, actions: seq<Action>, i: nat, j: nat)
    requires IsRun(cfg, states, actions) && i <= j < |states|
    ensures states[i].sendClosed ==> states[j].sendClosed
    ensures states[i].closeCalls <= states[j].closeCalls
  {
    hide Enabled, Apply;
    if i == j {
    } else {
      ClosedStaysClosed(cfg, states, actions, i, j - 1);
      StepKeepsClosed(cfg, states[j - 1], actions[j - 1]);
    }
  }

  ghost predicate CallsCloseSend(st: State, a: Action) {
    a.FinishPump? && st.threads.At(a.thread).Submitting? && st.threads.At(a.thread).closing
  }

  /** CloseSend is called at most once in a run, and no frame reaches SendCopy after it, in
      whatever order the threads interleave. */
  lemma HalfCloseIsSafe(cfg: Config, states: seq<State>, actions: seq<Action>, i: nat, j: nat)
    requires IsRun(cfg, states, actions) && i < j < |actions|
    requires CallsCloseSend(states[i], actions[i])
    ensures !CallsCloseSend(states[j], actions[j])
    ensures !actions[j].Submit?
  {
    hide ViewsOk, Discipline, Shape;
    assert Enabled(cfg, states[i], actions[i]) && states[i + 1] == Apply(cfg, states[i], actions[i]);
    assert Enabled(cfg, states[j], actions[j]);
    ClosedStaysClosed(cfg, states, actions, i + 1, j);
    RunKeepsInv(cfg, states, actions, j);
    if actions[j].Submit? {
      SubmittingIsSafe(cfg, states[j], actions[j].thread);
    }
  }

  /** Without a pacer no close is lost: if stop is set and everything is drained but the
      connection is not send-closed, some thread still owes it a PumpSends, and that call
      closes it. */
  lemma NoLostClose(cfg: Config, st: State) returns (t: ThreadId)
    requires Reachable(cfg, st) && !cfg.paced
    requires st.stopRequested && Drained(st.streams) && !st.sendClosed
    ensures Enabled(cfg, st, Pump(t, []))
    ensures var next := Apply(cfg, st, Pump(t, []));
            next.sendClosed && next.threads.At(t) == Submitting([], true)
  {
    hide ViewsOk, Discipline;
    ReachableInv(cfg, st);
    t := if st.threads.main.OwesPump? then MainThread else ReceiveLoop;
    assert PumpApply(cfg, st, t, []).streams == st.streams;
  }

  /** The pacer's next pass closes the connection. */
  ghost predicate NextPassCloses(cfg: Config, st: State) {
    && Enabled(cfg, st, PacerTick)
    && var awake := Apply(cfg, st, PacerTick);
       && Enabled(cfg, awake, Pump(PacerThread, []))
       && var closed := Apply(cfg, awake, Pump(PacerThread, []));
          closed.stopRequested && closed.sendClosed && closed.threads.At(PacerThread) == Submitting([], true)
  }

  /** With a pacer, its next pass over a drained, stopped connection closes it. */
  lemma PacerCloses(cfg: Config, st: State)
    requires Inv(cfg, st) && cfg.paced && st.threads.At(PacerThread).Idle?
    requires st.stopRequested && Drained(st.streams) && !st.sendClosed
    ensures NextPassCloses(cfg, st)
  {
    hide ViewsOk;
    var awake := Apply(cfg, st, PacerTick);
    StepKeepsInv(cfg, st, PacerTick);
    assert PumpApply(cfg, awake, PacerThread, []).streams == st.streams;
  }
}
