/** The conservation invariant of the pipeline and its preservation by every action. */
module PipelineInvariant {
  import opened Wire
  import opened Reassembly
  import opened Transport
  import opened Window
  import opened Pipeline

  /** Who may build frames: at any time one thread at most; the others only ever pump with
      a limit of zero. */
  ghost predicate Discipline(cfg: Config, st: State)
    requires Shape(cfg, st)
  {
    && (!st.started ==> st.threads.At(ReceiveLoop).Idle? && st.threads.At(PacerThread).Idle? && !st.stopRequested)
    && (cfg.paced ==> st.threads.At(ReceiveLoop).Idle?)
    && (!cfg.paced ==> st.threads.At(PacerThread).Idle?)
    && (forall t: ThreadId | t != Builder(cfg, st) ::
          SendsOf(st.threads.At(t)) == [] && (st.threads.At(t).OwesPump? ==> st.threads.At(t).limit == 0))
  }

  function OwedClose(a: Activity): nat {
    if a.Submitting? && a.closing then 1 else 0
  }

  function OwedCloses(st: State): nat
  {
    OwedClose(st.threads.At(MainThread)) + OwedClose(st.threads.At(ReceiveLoop)) + OwedClose(st.threads.At(PacerThread))
  }

  /** The decision to close is taken once, by one thread, with every stream drained. Without
      a pacer a drained, stopped, unclosed connection is always still owed a PumpSends. */
  ghost predicate Closing(cfg: Config, st: State)
    requires Shape(cfg, st)
  {
    && st.closeCalls + OwedCloses(st) == (if st.sendClosed then 1 else 0)
    && (st.sendClosed ==> st.stopRequested && Drained(st.streams))
    && (st.finSent ==> st.closeCalls > 0)
    && (st.serverClosed ==> st.finSent)
    && (!cfg.paced && st.stopRequested && Drained(st.streams) && !st.sendClosed ==>
          st.threads.At(MainThread).OwesPump? || st.threads.At(ReceiveLoop).OwesPump?)
  }

  ghost predicate ViewsOk(cfg: Config, st: State)
    requires ValidConfig(cfg) && Shape(cfg, st)
  {
    forall s | 0 <= s < |st.streams| ::
      ViewOk(cfg.profiles[s], cfg.serverMessageSize, st.now, ViewOf(cfg, st, s))
  }

  ghost predicate Inv(cfg: Config, st: State) {
    && ValidConfig(cfg) && Shape(cfg, st) && !st.failed && st.now < TWO_TO_64
    && Discipline(cfg, st) && Closing(cfg, st) && ViewsOk(cfg, st)
  }

  lemma InitialInv(cfg: Config, now: nat)
    requires ValidConfig(cfg) && now < TWO_TO_64
    ensures Inv(cfg, InitialState(cfg, now))
  {
    var st := InitialState(cfg, now);
    forall s | 0 <= s < |st.streams|
      ensures ViewOk(cfg.profiles[s], cfg.serverMessageSize, now, ViewOf(cfg, st, s))
    {
      BytesForNone(s);
      assert st.forward.channels[s] == [];
      assert ValidProfile(cfg.profiles[s]);
      assert BuiltFrames(cfg.profiles[s].messageSize, []) == [];
    }
  }

  // ---------------------------------------------------------------- what does not move bytes

  /** Views depend on the links only through what is in flight, and on the threads only
      through the local messages of the builder. */
  lemma SameViews(cfg: Config, st: State, st': State)
    requires ValidConfig(cfg) && Shape(cfg, st) && Shape(cfg, st') && ViewsOk(cfg, st)
    requires st'.now == st.now && st'.streams == st.streams
    requires st'.serverBuffers == st.serverBuffers && st'.serverSends == st.serverSends
    requires LocalSends(cfg, st') == LocalSends(cfg, st)
    requires forall s | 0 <= s < |st.streams| ::
               && InFlight(st'.forward, s) == InFlight(st.forward, s)
               && InFlight(st'.backward, s) == InFlight(st.backward, s)
    ensures ViewsOk(cfg, st')
  {
    hide ViewOk, InFlight, BytesFor;
    forall s | 0 <= s < |st'.streams|
      ensures ViewOk(cfg.profiles[s], cfg.serverMessageSize, st'.now, ViewOf(cfg, st', s))
    {
      assert ViewOf(cfg, st', s) == ViewOf(cfg, st, s);
    }
  }

  predicate MovesOnlyThreads(a: Action) {
    a.StartReceiving? || a.RequestStop? || a.PacerTick? || a.FinishPump? || a.ShutdownWrite? || a.ServerEndOfFile?
  }

  lemma ThreadShape(cfg: Config, st: State, a: Action)
    requires Enabled(cfg, st, a) && MovesOnlyThreads(a)
    ensures Shape(cfg, Apply(cfg, st, a))
  {
    hide LinkShape;
    var st' := Apply(cfg, st, a);
    forall t: ThreadId
      ensures SendsShape(SendsOf(st'.threads.At(t)), |cfg.profiles|)
    {
      assert st'.threads.At(t) == st.threads.At(t) || SendsOf(st'.threads.At(t)) == [];
    }
  }

  lemma FinishMoves(cfg: Config, st: State, u: ThreadId, t: ThreadId)
    requires Enabled(cfg, st, FinishPump(u))
    ensures var before, after := st.threads.At(t), Apply(cfg, st, FinishPump(u)).threads.At(t);
            if t == u then after == Idle && SendsOf(before) == [] else after == before
  {
    hide Shape;
  }

  lemma WakingMoves(cfg: Config, st: State, a: Action, t: ThreadId)
    requires Enabled(cfg, st, a) && (a.RequestStop? || a.PacerTick?)
    ensures var before, after := st.threads.At(t), Apply(cfg, st, a).threads.At(t);
            || after == before
            || (before == Idle && after.OwesPump? && ((t.PacerThread? && a.PacerTick?) || after.limit == 0))
  {
    hide Shape;
  }

  lemma OtherMoves(cfg: Config, st: State, a: Action)
    requires Enabled(cfg, st, a) && (a.StartReceiving? || a.ShutdownWrite? || a.ServerEndOfFile?)
    ensures Apply(cfg, st, a).threads == st.threads
  {
    hide Shape;
  }

  /** What such an action may do to a thread: nothing, go idle, or owe an empty pump; only
      the pacer, when it wakes, may owe a message. */
  lemma ThreadMoves(cfg: Config, st: State, a: Action, t: ThreadId)
    requires Enabled(cfg, st, a) && MovesOnlyThreads(a)
    ensures var before, after := st.threads.At(t), Apply(cfg, st, a).threads.At(t);
            || after == before
            || (after == Idle && SendsOf(before) == [])
            || (before == Idle && after.OwesPump? && ((t.PacerThread? && a.PacerTick?) || after.limit == 0))
  {
    hide Enabled, Apply;
    match a
    case FinishPump(u) => FinishMoves(cfg, st, u, t);
    case RequestStop => WakingMoves(cfg, st, a, t);
    case PacerTick => WakingMoves(cfg, st, a, t);
    case _ => OtherMoves(cfg, st, a);
  }

  lemma NewBuilderIsIdle(cfg: Config, st: State)
    requires Enabled(cfg, st, StartReceiving) && Discipline(cfg, st)
    ensures SendsOf(st.threads.At(MainThread)) == [] && st.threads.At(MainThread) == Idle
    ensures SendsOf(st.threads.At(Builder(cfg, st.(started := true)))) == []
  {
    hide Shape;
  }

  lemma ThreadDiscipline(cfg: Config, st: State, a: Action)
    requires Inv(cfg, st) && Enabled(cfg, st, a) && MovesOnlyThreads(a) && Shape(cfg, Apply(cfg, st, a))
    ensures Discipline(cfg, Apply(cfg, st, a)) && LocalSends(cfg, Apply(cfg, st, a)) == LocalSends(cfg, st)
  {
    hide ViewsOk, Closing, Shape, ValidPicks, EchoParse, PumpApply, SubmitApply, ServeApply, EchoApply, Readings;
    var st' := Apply(cfg, st, a);
    if a.StartReceiving? {
      NewBuilderIsIdle(cfg, st);
    }
    forall t: ThreadId
      ensures SendsOf(st'.threads.At(t)) == SendsOf(st.threads.At(t))
      ensures st'.threads.At(t).OwesPump? ==>
                || st'.threads.At(t) == st.threads.At(t) || st'.threads.At(t).limit == 0
                || (t.PacerThread? && a.PacerTick?)
    {
      ThreadMoves(cfg, st, a, t);
    }
  }

  lemma ThreadClosing(cfg: Config, st: State, a: Action)
    requires Inv(cfg, st) && Enabled(cfg, st, a) && MovesOnlyThreads(a) && Shape(cfg, Apply(cfg, st, a))
    ensures Closing(cfg, Apply(cfg, st, a))
  {
    hide ViewsOk, SendsShape, LinkShape, ValidPicks, EchoParse, PumpApply, SubmitApply, ServeApply, EchoApply, Readings;
  }

  lemma ThreadStep(cfg: Config, st: State, a: Action)
    requires Inv(cfg, st) && Enabled(cfg, st, a) && MovesOnlyThreads(a)
    ensures Inv(cfg, Apply(cfg, st, a))
  {
    hide ViewsOk, InFlight, Discipline, Closing, Shape;
    ThreadShape(cfg, st, a);
    ThreadDiscipline(cfg, st, a);
    ThreadClosing(cfg, st, a);
    SameViews(cfg, st, Apply(cfg, st, a));
  }

  lemma TickStep(cfg: Config, st: State, time: nat)
    requires Inv(cfg, st) && Enabled(cfg, st, Tick(time))
    ensures Inv(cfg, Apply(cfg, st, Tick(time)))
  {
    hide ViewOk, InFlight;
    var st' := Apply(cfg, st, Tick(time));
    forall s | 0 <= s < |st'.streams|
      ensures ViewOk(cfg.profiles[s], cfg.serverMessageSize, time, ViewOf(cfg, st', s))
    {
      assert ViewOf(cfg, st', s) == ViewOf(cfg, st, s);
      TickView(cfg.profiles[s], cfg.serverMessageSize, st.now, time, ViewOf(cfg, st, s));
    }
  }

  lemma LinkShapeKept(cfg: Config, st: State, a: Action)
    requires Enabled(cfg, st, a)
    requires a.ClientDequeue? || a.ClientWrite? || a.ServerDequeue? || a.ServerWrite?
    ensures Shape(cfg, Apply(cfg, st, a))
    ensures forall s | 0 <= s < |st.streams| ::
              && InFlight(Apply(cfg, st, a).forward, s) == InFlight(st.forward, s)
              && InFlight(Apply(cfg, st, a).backward, s) == InFlight(st.backward, s)
  {
    hide InFlight, SendsShape;
    forall s | 0 <= s < |st.streams|
      ensures InFlight(Apply(cfg, st, a).forward, s) == InFlight(st.forward, s)
      ensures InFlight(Apply(cfg, st, a).backward, s) == InFlight(st.backward, s)
    {
      match a
      case ClientDequeue => DequeueEffect(st.forward, s);
      case ClientWrite(n) => WriteEffect(st.forward, n, s);
      case ServerDequeue => DequeueEffect(st.backward, s);
      case ServerWrite(n) => WriteEffect(st.backward, n, s);
    }
  }

  lemma LinkStep(cfg: Config, st: State, a: Action)
    requires Inv(cfg, st) && Enabled(cfg, st, a)
    requires a.ClientDequeue? || a.ClientWrite? || a.ServerDequeue? || a.ServerWrite?
    ensures Inv(cfg, Apply(cfg, st, a))
  {
    hide ViewsOk, InFlight, LinkShape, SendsShape, WriteBytes, Dequeue;
    LinkShapeKept(cfg, st, a);
    SameViews(cfg, st, Apply(cfg, st, a));
  }

  // ---------------------------------------------------------------- drained means empty

  lemma EvenWhenDrained(streams: seq<ClientStream>, s: nat)
    requires Drained(streams) && s < |streams|
    ensures streams[s].counters.nextSequence == streams[s].counters.echoedMessages
  {
    assert CountersOf(streams)[s] == streams[s].counters;
  }

  lemma PendingShowsInAView(cfg: Config, st: State)
    requires Shape(cfg, st)
    ensures LocalSends(cfg, st) != [] ==> exists s | 0 <= s < |st.streams| :: ViewOf(cfg, st, s).local != []
    ensures st.serverSends != [] ==> exists s | 0 <= s < |st.streams| :: ViewOf(cfg, st, s).returning != []
  {
    hide Concat;
    var local := LocalSends(cfg, st);
    if local != [] {
      assert SendsShape(local, |cfg.profiles|);
      assert DataFor(local, local[0].stream) != [];
      assert ViewOf(cfg, st, local[0].stream).local != [];
    }
    if st.serverSends != [] {
      var s := st.serverSends[0].stream;
      BytesForCons(st.serverSends, s);
      assert |ViewOf(cfg, st, s).returning| >= |st.serverSends[0].data|;
    }
  }

  lemma BusyHasBytes(link: Link, streams: nat)
    requires LinkShape(link, streams) && Busy(link)
    ensures exists s | 0 <= s < streams :: InFlight(link, s) != []
  {
    hide Concat;
    if link.current.Some? {
      var s := link.current.value.stream;
      BytesForOne(link.current.value, s);
      assert |InFlight(link, s)| >= |link.current.value.data|;
    } else {
      var s := link.queue[0].stream;
      BytesForCons(link.queue, s);
      assert |InFlight(link, s)| >= |link.queue[0].data|;
    }
  }

  lemma EmptyInFlight(link: Link, streams: nat)
    requires LinkShape(link, streams)
    requires forall s | 0 <= s < streams :: InFlight(link, s) == []
    ensures !Busy(link)
    ensures forall s | 0 <= s < streams :: link.channels[s] == []
  {
    hide Concat;
    forall s | 0 <= s < streams
      ensures link.channels[s] == []
    {
      assert |InFlight(link, s)| >= |link.channels[s]|;
    }
    if Busy(link) {
      BusyHasBytes(link, streams);
    }
  }

  /** When every stream's counters agree, no byte is left anywhere in either direction. */
  lemma DrainedIsEmpty(cfg: Config, st: State)
    requires Inv(cfg, st) && Drained(st.streams)
    ensures forall s | 0 <= s < |st.streams| ::
              && ViewOf(cfg, st, s) == View(st.streams[s], [], [], [], [])
              && st.streams[s].receiveBuffer == []
              && |st.streams[s].consumed| == |st.streams[s].stamps|
    ensures LocalSends(cfg, st) == [] && st.serverSends == []
    ensures !Busy(st.forward) && !Busy(st.backward)
    ensures forall s | 0 <= s < |st.streams| :: st.forward.channels[s] == [] && st.backward.channels[s] == []
  {
    hide ViewOk, PositionsOk, Drained, Closing;
    forall s | 0 <= s < |st.streams|
      ensures ViewOf(cfg, st, s) == View(st.streams[s], [], [], [], []) && st.streams[s].receiveBuffer == []
           && |st.streams[s].consumed| == |st.streams[s].stamps|
      ensures InFlight(st.forward, s) == [] && InFlight(st.backward, s) == []
    {
      EvenWhenDrained(st.streams, s);
      DrainedViewIsEmpty(cfg.profiles[s], cfg.serverMessageSize, st.now, ViewOf(cfg, st, s));
      assert |ViewOf(cfg, st, s).returning| >= |InFlight(st.backward, s)|;
    }
    EmptyInFlight(st.forward, |st.streams|);
    EmptyInFlight(st.backward, |st.streams|);
    PendingShowsInAView(cfg, st);
  }

  // ---------------------------------------------------------------- pumping and submitting

  lemma PumpShape(cfg: Config, st: State, t: ThreadId, picks: seq<Pick>)
    requires Enabled(cfg, st, Pump(t, picks))
    ensures Shape(cfg, PumpApply(cfg, st, t, picks))
  {
    var st' := PumpApply(cfg, st, t, picks);
    BuiltShape(cfg.profiles, CountersOf(st.streams), picks);
    assert SendsShape(Built(cfg.profiles, CountersOf(st.streams), picks), |cfg.profiles|);
    assert forall u: ThreadId :: u != t ==> st'.threads.At(u) == st.threads.At(u);
  }

  lemma PumpViews(cfg: Config, st: State, t: ThreadId, picks: seq<Pick>)
    requires Inv(cfg, st) && Enabled(cfg, st, Pump(t, picks)) && Shape(cfg, PumpApply(cfg, st, t, picks))
    ensures ViewsOk(cfg, PumpApply(cfg, st, t, picks))
  {
    hide InFlight, Closing, PositionsOk, ClockOk, Numbered;
    var st' := PumpApply(cfg, st, t, picks);
    if st.sendClosed || t != Builder(cfg, st) {
      assert picks == [];
      assert st'.streams == st.streams;
      assert LocalSends(cfg, st') == LocalSends(cfg, st);
      SameViews(cfg, st, st');
    } else {
      var before := CountersOf(st.streams);
      forall s | 0 <= s < |st'.streams|
        ensures ViewOk(cfg.profiles[s], cfg.serverMessageSize, st'.now, ViewOf(cfg, st', s))
      {
        var v, x := ViewOf(cfg, st, s), st.streams[s];
        assert v.local == [];
        PicksKeepTracking(cfg.profiles, before, picks, s, |x.stamps|, |x.consumed|);
        var local := DataFor(Built(cfg.profiles, before, picks), s);
        PumpView(cfg.profiles[s], cfg.serverMessageSize, st.now, v, AfterPicks(before, picks)[s], local);
        assert ViewOf(cfg, st', s) == v.(x := x.(counters := AfterPicks(before, picks)[s]), local := local);
      }
    }
  }

  lemma PumpStep(cfg: Config, st: State, t: ThreadId, picks: seq<Pick>)
    requires Inv(cfg, st) && Enabled(cfg, st, Pump(t, picks))
    ensures Inv(cfg, Apply(cfg, st, Pump(t, picks)))
  {
    hide ViewsOk, Built, ValidPicks, LinkShape, SendsShape;
    PumpShape(cfg, st, t, picks);
    PumpViews(cfg, st, t, picks);
    var st' := PumpApply(cfg, st, t, picks);
    assert st.stopRequested || st.sendClosed || t != Builder(cfg, st) ==> picks == [];
    assert picks == [] ==> st'.streams == st.streams;
  }

  /** Only the builder has messages to submit, and never once the connection is closed. */
  lemma SubmittingIsSafe(cfg: Config, st: State, t: ThreadId)
    requires Inv(cfg, st) && Enabled(cfg, st, Submit(t))
    ensures t == Builder(cfg, st) && !st.sendClosed && st.closeCalls == 0
  {
    hide ViewsOk;
    if st.sendClosed {
      DrainedIsEmpty(cfg, st);
    }
  }

  lemma SubmitShape(cfg: Config, st: State, t: ThreadId)
    requires Inv(cfg, st) && Enabled(cfg, st, Submit(t))
    ensures Shape(cfg, SubmitApply(cfg, st, t))
  {
    hide ViewsOk, Closing, Stamp;
    var st' := SubmitApply(cfg, st, t);
    assert SendsShape(SendsOf(st.threads.At(t)), |cfg.profiles|);
    assert SendsShape(st.threads.At(t).sends[1..], |cfg.profiles|);
    assert forall u: ThreadId :: u != t ==> st'.threads.At(u) == st.threads.At(u);
  }

  lemma SubmitViews(cfg: Config, st: State, t: ThreadId)
    requires Inv(cfg, st) && Enabled(cfg, st, Submit(t)) && t == Builder(cfg, st)
    requires Shape(cfg, SubmitApply(cfg, st, t))
    ensures ViewsOk(cfg, SubmitApply(cfg, st, t))
  {
    hide InFlight, Closing, PositionsOk, ClockOk, Tracks, Stamp, ViewOk, Concat;
    var st' := SubmitApply(cfg, st, t);
    var sends := st.threads.At(t).sends;
    assert SendsShape(SendsOf(st.threads.At(t)), |cfg.profiles|);
    forall s | 0 <= s < |st'.streams|
      ensures ViewOk(cfg.profiles[s], cfg.serverMessageSize, st'.now, ViewOf(cfg, st', s))
    {
      var v := ViewOf(cfg, st, s);
      EnqueueEffect(st.forward, Send(sends[0].stream, Stamp(sends[0].data, st.now)), s);
      if s == sends[0].stream {
        assert v.local == [sends[0].data] + DataFor(sends[1..], s);
        SubmitView(cfg.profiles[s], cfg.serverMessageSize, st.now, v);
        assert v.local[1..] == DataFor(sends[1..], s);
        assert ViewOf(cfg, st', s) == v.(x := v.x.(stamps := v.x.stamps + [st.now]),
                                         outgoing := v.outgoing + Stamp(v.local[0], st.now),
                                         local := v.local[1..]);
      } else {
        assert ViewOf(cfg, st', s) == v;
      }
    }
  }

  lemma SubmitStep(cfg: Config, st: State, t: ThreadId)
    requires Inv(cfg, st) && Enabled(cfg, st, Submit(t))
    ensures Inv(cfg, Apply(cfg, st, Submit(t)))
  {
    hide ViewsOk;
    SubmittingIsSafe(cfg, st, t);
    SubmitShape(cfg, st, t);
    SubmitViews(cfg, st, t);
    var st' := SubmitApply(cfg, st, t);
    assert CountersOf(st'.streams) == CountersOf(st.streams);
  }

  // ---------------------------------------------------------------- deliveries

  lemma {:induction false} DataForOnStream(frames: seq<Bytes>, t: nat, s: nat)
    ensures DataFor(OnStream(frames, t), s) == if s == t then frames else []
  {
    if frames == [] {
    } else {
      DataForOnStream(frames[1..], t, s);
      assert OnStream(frames, t)[1..] == OnStream(frames[1..], t);
      assert frames == [frames[0]] + frames[1..];
    }
  }

  lemma BytesForOnStream(frames: seq<Bytes>, t: nat, s: nat)
    ensures BytesFor(OnStream(frames, t), s) == if s == t then Concat(frames) else []
  {
    DataForOnStream(frames, t, s);
  }

  lemma ServeShape(cfg: Config, st: State, s: nat, n: nat)
    requires Enabled(cfg, st, DeliverToServer(s, n))
    ensures Shape(cfg, ServeApply(cfg, st, s, n))
  {
    hide TryPeekFrameSize, ParseAll;
    var buffer := st.serverBuffers[s] + st.forward.channels[s][..n];
    ParsedFramesHaveHeaders(buffer, cfg.serverMessageSize);
    assert SendsShape(OnStream(ParseAll(buffer, cfg.serverMessageSize).frames, s), |cfg.profiles|);
  }

  /** The view of the stream that was served, when its chunk was well formed. */
  function ServedView(v: View, p: Parsed, later: Bytes): View {
    v.(x := v.x.(served := v.x.served + |p.frames|),
       returning := v.returning + Concat(p.frames),
       serverBuffer := p.rest,
       outgoing := later)
  }

  function ServeParse(cfg: Config, st: State, s: nat, n: nat): Parsed
    requires Shape(cfg, st) && s < |st.streams| && n <= |st.forward.channels[s]|
  {
    ParseAll(st.serverBuffers[s] + st.forward.channels[s][..n], cfg.serverMessageSize)
  }

  lemma ServeMakesView(cfg: Config, st: State, s: nat, n: nat)
    requires ValidConfig(cfg) && Enabled(cfg, st, DeliverToServer(s, n)) && Shape(cfg, ServeApply(cfg, st, s, n))
    requires ServeParse(cfg, st, s, n).error.None?
    ensures ViewOf(cfg, ServeApply(cfg, st, s, n), s)
         == ServedView(ViewOf(cfg, st, s), ServeParse(cfg, st, s, n), InFlight(Deliver(st.forward, s, n), s))
  {
    hide InFlight, BytesFor, Concat, ParseAll, SendsShape, Deliver;
    var p := ServeParse(cfg, st, s, n);
    BytesForNone(s);
    BytesForOnStream(p.frames, s, s);
    assert ViewOf(cfg, st, s).returning == InFlight(st.backward, s) + [] == InFlight(st.backward, s);
  }

  lemma ServeOwnView(cfg: Config, st: State, s: nat, n: nat)
    requires Inv(cfg, st) && Enabled(cfg, st, DeliverToServer(s, n))
    requires Shape(cfg, ServeApply(cfg, st, s, n))
    ensures var st' := ServeApply(cfg, st, s, n);
            !st'.failed && ViewOk(cfg.profiles[s], cfg.serverMessageSize, st'.now, ViewOf(cfg, st', s))
  {
    hide InFlight, BytesFor, Closing, Discipline, ViewOk, Concat, ParseAll, SendsShape, Deliver;
    var chunk := st.forward.channels[s][..n];
    DeliverEffect(st.forward, s, n, s);
    var v, later := ViewOf(cfg, st, s), InFlight(Deliver(st.forward, s, n), s);
    ServeView(cfg.profiles[s], cfg.serverMessageSize, st.now, v, chunk, later);
    ServeMakesView(cfg, st, s, n);
  }

  lemma ServeOtherView(cfg: Config, st: State, s: nat, n: nat, u: nat)
    requires Inv(cfg, st) && Enabled(cfg, st, DeliverToServer(s, n))
    requires Shape(cfg, ServeApply(cfg, st, s, n)) && u < |st.streams| && u != s
    ensures ServeApply(cfg, st, s, n).failed || ViewOf(cfg, ServeApply(cfg, st, s, n), u) == ViewOf(cfg, st, u)
  {
    hide InFlight, BytesFor, Closing, Discipline, ViewsOk, Concat, ParseAll, TryPeekFrameSize, SendsShape;
    DeliverEffect(st.forward, s, n, u);
    BytesForNone(u);
    BytesForOnStream(ParseAll(st.serverBuffers[s] + st.forward.channels[s][..n], cfg.serverMessageSize).frames, s, u);
  }

  lemma ServeViews(cfg: Config, st: State, s: nat, n: nat)
    requires Inv(cfg, st) && Enabled(cfg, st, DeliverToServer(s, n))
    requires Shape(cfg, ServeApply(cfg, st, s, n))
    ensures ViewsOk(cfg, ServeApply(cfg, st, s, n)) && !ServeApply(cfg, st, s, n).failed
  {
    hide InFlight, BytesFor, Closing, Discipline, ViewOk, ViewOf, ParseAll, SendsShape, LinkShape;
    var st' := ServeApply(cfg, st, s, n);
    ServeOwnView(cfg, st, s, n);
    forall u | 0 <= u < |st'.streams|
      ensures ViewOk(cfg.profiles[u], cfg.serverMessageSize, st'.now, ViewOf(cfg, st', u))
    {
      if u != s {
        ServeOtherView(cfg, st, s, n, u);
      }
    }
  }

  lemma ServeStep(cfg: Config, st: State, s: nat, n: nat)
    requires Inv(cfg, st) && Enabled(cfg, st, DeliverToServer(s, n))
    ensures Inv(cfg, Apply(cfg, st, DeliverToServer(s, n)))
  {
    hide ViewsOk, ParseAll, TryPeekFrameSize, InFlight;
    ServeShape(cfg, st, s, n);
    ServeViews(cfg, st, s, n);
    var st' := ServeApply(cfg, st, s, n);
    assert CountersOf(st'.streams) == CountersOf(st.streams);
  }

  lemma ServerSubmitShape(cfg: Config, st: State)
    requires Enabled(cfg, st, ServerSubmit)
    ensures Shape(cfg, Apply(cfg, st, ServerSubmit))
  {
    var sends := st.serverSends;
    assert SendsShape(sends[1..], |cfg.profiles|);
  }

  lemma ServerSubmitViews(cfg: Config, st: State)
    requires Inv(cfg, st) && Enabled(cfg, st, ServerSubmit) && Shape(cfg, Apply(cfg, st, ServerSubmit))
    ensures ViewsOk(cfg, Apply(cfg, st, ServerSubmit))
  {
    hide InFlight, BytesFor, ViewOk, Discipline, Closing, SendsShape;
    var st' := Apply(cfg, st, ServerSubmit);
    var sends := st.serverSends;
    forall u | 0 <= u < |st'.streams|
      ensures ViewOk(cfg.profiles[u], cfg.serverMessageSize, st'.now, ViewOf(cfg, st', u))
    {
      EnqueueEffect(st.backward, sends[0], u);
      BytesForCons(sends, u);
      assert ViewOf(cfg, st', u).returning == ViewOf(cfg, st, u).returning;
      assert ViewOf(cfg, st', u) == ViewOf(cfg, st, u);
    }
  }

  lemma ServerSubmitStep(cfg: Config, st: State)
    requires Inv(cfg, st) && Enabled(cfg, st, ServerSubmit)
    ensures Inv(cfg, Apply(cfg, st, ServerSubmit))
  {
    hide ViewsOk, Shape, Enqueue;
    ServerSubmitShape(cfg, st);
    ServerSubmitViews(cfg, st);
  }

  lemma EchoViews(cfg: Config, st: State, s: nat, n: nat, readings: seq<nat>)
    requires Inv(cfg, st) && Enabled(cfg, st, DeliverToClient(s, n, readings))
    requires Shape(cfg, EchoApply(cfg, st, s, n, readings))
    ensures ViewsOk(cfg, EchoApply(cfg, st, s, n, readings)) && !EchoApply(cfg, st, s, n, readings).failed
  {
    hide InFlight, BytesFor, Closing, Discipline, ViewOk, Concat, ParseAll, TryPeekFrameSize, Consume, SendsShape,
        Numbered;
    var st' := EchoApply(cfg, st, s, n, readings);
    var chunk := st.backward.channels[s][..n];
    DeliverEffect(st.backward, s, n, s);
    var later := InFlight(st'.backward, s) + BytesFor(st.serverSends, s);
    assert ViewOf(cfg, st, s).returning == chunk + later;
    EchoView(cfg.profiles[s], cfg.serverMessageSize, st.now, ViewOf(cfg, st, s), chunk, later, readings);
    assert SendsOf(st'.threads.At(Builder(cfg, st'))) == SendsOf(st.threads.At(Builder(cfg, st)));
    forall u | 0 <= u < |st'.streams|
      ensures ViewOk(cfg.profiles[u], cfg.serverMessageSize, st'.now, ViewOf(cfg, st', u))
    {
      var v := ViewOf(cfg, st, u);
      DeliverEffect(st.backward, s, n, u);
      if u == s {
        assert ViewOf(cfg, st', s) == v.(x := Consume(v.x, EchoParse(cfg, st, s, n), readings), returning := later);
      } else {
        assert ViewOf(cfg, st', u) == v;
        TickView(cfg.profiles[u], cfg.serverMessageSize, st.now, st'.now, v);
      }
    }
  }

  lemma EchoStep(cfg: Config, st: State, s: nat, n: nat, readings: seq<nat>)
    requires Inv(cfg, st) && Enabled(cfg, st, DeliverToClient(s, n, readings))
    ensures Inv(cfg, Apply(cfg, st, DeliverToClient(s, n, readings)))
  {
    hide ViewsOk, InFlight, Consume, ParseAll, TryPeekFrameSize, SendsShape;
    var st' := EchoApply(cfg, st, s, n, readings);
    assert !st.sendClosed by {
      if st.sendClosed {
        DrainedIsEmpty(cfg, st);
      }
    }
    assert Shape(cfg, st');
    EchoViews(cfg, st, s, n, readings);
  }

  // ---------------------------------------------------------------- every step, every run

  /** Every action keeps the invariant. */
  lemma StepKeepsInv(cfg: Config, st: State, a: Action)
    requires Inv(cfg, st) && Enabled(cfg, st, a)
    ensures Inv(cfg, Apply(cfg, st, a))
  {
    hide Inv, Apply, Enabled;
    match a
    case Pump(t, picks) => PumpStep(cfg, st, t, picks);
    case Submit(t) => SubmitStep(cfg, st, t);
    case DeliverToServer(s, n) => ServeStep(cfg, st, s, n);
    case ServerSubmit => ServerSubmitStep(cfg, st);
    case DeliverToClient(s, n, readings) => EchoStep(cfg, st, s, n, readings);
    case Tick(time) => TickStep(cfg, st, time);
    case ClientDequeue => LinkStep(cfg, st, a);
    case ClientWrite(_) => LinkStep(cfg, st, a);
    case ServerDequeue => LinkStep(cfg, st, a);
    case ServerWrite(_) => LinkStep(cfg, st, a);
    case _ => ThreadStep(cfg, st, a);
  }

  /** Every state of every run satisfies the invariant. */
  lemma {:induction false} RunKeepsInv(cfg: Config, states: seq<State>, actions: seq<Action>, i: nat)
    requires IsRun(cfg, states, actions) && i < |states|
    ensures Inv(cfg, states[i])
  {
    hide Inv, Enabled, Apply;
    if i == 0 {
      InitialInv(cfg, states[0].now);
    } else {
      RunKeepsInv(cfg, states, actions, i - 1);
      StepKeepsInv(cfg, states[i - 1], actions[i - 1]);
    }
  }

  lemma ReachableInv(cfg: Config, st: State)
    requires Reachable(cfg, st)
    ensures Inv(cfg, st)
  {
    hide Inv, Enabled, Apply;
    var states, actions :| IsRun(cfg, states, actions) && states[|actions|] == st;
    RunKeepsInv(cfg, states, actions, |actions|);
  }
}
