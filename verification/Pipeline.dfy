/** One SCTP connection with its streams as a state machine. Each locked region, each
    submit after the lock is released, each partial write, each delivered chunk and each
    close is one action, and the threads that run them interleave freely. */
module Pipeline {
  import opened Wire
  import opened Reassembly
  import opened Transport
  import opened Window

  const SIZE_MAX: nat := 0xFFFF_FFFF_FFFF_FFFF

  /** `paced` and `sending` are what the controller derives from its options: whether a
      pacer thread drives the sends, and whether this connection sends at all. */
  datatype Config = Config(profiles: seq<Profile>, serverMessageSize: nat, paced: bool, sending: bool)

  predicate ValidConfig(cfg: Config) {
    cfg.profiles != [] && ValidProfiles(cfg.profiles)
  }

  datatype ThreadId = MainThread | ReceiveLoop | PacerThread

  /** What a client thread is about to do for this connection: call PumpSends, or, having
      left its locked region, submit the local messages and then close if it decided so. */
  datatype Activity =
    | Idle
    | OwesPump(limit: nat)
    | Submitting(sends: seq<Send>, closing: bool)

  datatype Threads = Threads(main: Activity, receive: Activity, pacer: Activity) {
    function At(t: ThreadId): Activity {
      match t
      case MainThread => main
      case ReceiveLoop => receive
      case PacerThread => pacer
    }

    function With(t: ThreadId, a: Activity): Threads {
      match t
      case MainThread => this.(main := a)
      case ReceiveLoop => this.(receive := a)
      case PacerThread => this.(pacer := a)
    }
  }

  /** `stamps`, `served`, `consumed` and `latencies` are history: the timestamps given to
      the submitted frames, how many frames the server has extracted, and the frames the
      client has extracted with the latencies it recorded. */
  datatype ClientStream = ClientStream(
    counters: Counters,
    receiveBuffer: Bytes,
    stamps: seq<nat>,
    served: nat,
    consumed: seq<Bytes>,
    latencies: seq<nat>)

  datatype State = State(
    now: nat,
    started: bool,
    stopRequested: bool,
    sendClosed: bool,
    closeCalls: nat,
    finSent: bool,
    serverClosed: bool,
    failed: bool,
    threads: Threads,
    streams: seq<ClientStream>,
    forward: Link,
    backward: Link,
    serverBuffers: seq<Bytes>,
    serverSends: seq<Send>)

  datatype Action =
    | StartReceiving
    | RequestStop
    | PacerTick
    | Pump(thread: ThreadId, picks: seq<Pick>)
    | Submit(thread: ThreadId)
    | FinishPump(thread: ThreadId)
    | ClientDequeue
    | ClientWrite(n: nat)
    | ShutdownWrite
    | DeliverToServer(stream: nat, n: nat)
    | ServerSubmit
    | ServerDequeue
    | ServerWrite(n: nat)
    | ServerEndOfFile
    | DeliverToClient(stream: nat, n: nat, readings: seq<nat>)
    | Tick(time: nat)

  // ---------------------------------------------------------------- the machine

  function SendsOf(a: Activity): seq<Send> {
    if a.Submitting? then a.sends else []
  }

  predicate SendsShape(sends: seq<Send>, streams: nat) {
    forall i | 0 <= i < |sends| :: sends[i].stream < streams && |sends[i].data| >= HEADER_SIZE
  }

  predicate Shape(cfg: Config, st: State) {
    var n := |cfg.profiles|;
    && |st.streams| == n && |st.serverBuffers| == n
    && LinkShape(st.forward, n) && LinkShape(st.backward, n)
    && (forall t: ThreadId :: SendsShape(SendsOf(st.threads.At(t)), n))
    && SendsShape(st.serverSends, n)
  }

  function InitialState(cfg: Config, now: nat): State {
    var n := |cfg.profiles|;
    State(now, false, false, false, 0, false, false, false,
          Threads(if cfg.paced then Idle else OwesPump(SIZE_MAX), Idle, Idle),
          seq(n, _ => ClientStream(Counters(0, 0), [], [], 0, [], [])),
          EmptyLink(n), EmptyLink(n), seq(n, _ => []), [])
  }

  function CountersOf(streams: seq<ClientStream>): (cs: seq<Counters>)
    ensures |cs| == |streams|
  {
    seq(|streams|, i requires 0 <= i < |streams| => streams[i].counters)
  }

  /** AllStreamsDrained. */
  predicate Drained(streams: seq<ClientStream>) {
    AllDrained(CountersOf(streams))
  }

  /** Successive readings of the clock from `now` on. */
  ghost predicate Readings(now: nat, readings: seq<nat>) {
    && (forall i | 0 <= i < |readings| :: now <= readings[i] < TWO_TO_64)
    && (forall i, j | 0 <= i < j < |readings| :: readings[i] <= readings[j])
  }

  function LastReading(now: nat, readings: seq<nat>): nat {
    if readings == [] then now else readings[|readings| - 1]
  }

  /** What the client's receive handler extracts from the first `n` bytes of a channel. */
  function EchoParse(cfg: Config, st: State, s: nat, n: nat): Parsed
    requires Shape(cfg, st) && s < |st.streams| && n <= |st.backward.channels[s]|
  {
    ParseAll(st.streams[s].receiveBuffer + st.backward.channels[s][..n], cfg.profiles[s].messageSize)
  }

  ghost predicate Enabled(cfg: Config, st: State, a: Action) {
    && ValidConfig(cfg) && Shape(cfg, st) && !st.failed
    && match a
       case StartReceiving => !st.started && st.threads.At(MainThread).Idle?
       case RequestStop => st.started && st.threads.At(MainThread).Idle? && !st.stopRequested
       case PacerTick => cfg.paced && st.started && st.threads.At(PacerThread).Idle?
       case Pump(t, picks) =>
         && st.threads.At(t).OwesPump?
         && |picks| <= st.threads.At(t).limit
         && (picks != [] ==> cfg.sending && !st.stopRequested && !st.sendClosed)
         && ValidPicks(cfg.profiles, CountersOf(st.streams), picks)
       case Submit(t) => st.threads.At(t).Submitting? && st.threads.At(t).sends != []
       case FinishPump(t) => st.threads.At(t).Submitting? && st.threads.At(t).sends == []
       case ClientDequeue => !st.finSent && st.forward.current.None? && st.forward.queue != []
       case ClientWrite(n) =>
         !st.finSent && st.forward.current.Some? && 0 < n <= |st.forward.current.value.data|
       case ShutdownWrite => !st.finSent && st.closeCalls > 0 && !Busy(st.forward)
       case DeliverToServer(s, n) =>
         !st.serverClosed && st.serverSends == [] && s < |st.streams| && 0 < n <= |st.forward.channels[s]|
       case ServerSubmit => !st.serverClosed && st.serverSends != []
       case ServerDequeue => !st.serverClosed && st.backward.current.None? && st.backward.queue != []
       case ServerWrite(n) =>
         !st.serverClosed && st.backward.current.Some? && 0 < n <= |st.backward.current.value.data|
       case ServerEndOfFile =>
         && st.finSent && !st.serverClosed && st.serverSends == []
         && forall s | 0 <= s < |st.streams| :: st.forward.channels[s] == []
       case DeliverToClient(s, n, readings) =>
         && st.started && st.threads.At(ReceiveLoop).Idle?
         && s < |st.streams| && 0 < n <= |st.backward.channels[s]|
         && |readings| == |EchoParse(cfg, st, s, n).frames| && Readings(st.now, readings)
       case Tick(time) => st.now < time < TWO_TO_64
  }

  function PumpApply(cfg: Config, st: State, t: ThreadId, picks: seq<Pick>): (r: State)
    requires ValidConfig(cfg) && Shape(cfg, st)
    ensures r.stopRequested == st.stopRequested && r.closeCalls == st.closeCalls && (st.sendClosed ==> r.sendClosed)
  {
    if st.sendClosed then st.(threads := st.threads.With(t, Submitting([], false)))
    else
      var before := CountersOf(st.streams);
      var after := AfterPicks(before, picks);
      var streams := seq(|st.streams|, s requires 0 <= s < |st.streams| => st.streams[s].(counters := after[s]));
      var closing := st.stopRequested && Drained(streams);
      st.(streams := streams,
          sendClosed := closing,
          threads := st.threads.With(t, Submitting(Built(cfg.profiles, before, picks), closing)))
  }

  function SubmitApply(cfg: Config, st: State, t: ThreadId): (r: State)
    requires Shape(cfg, st) && st.threads.At(t).Submitting? && st.threads.At(t).sends != []
    ensures r.stopRequested == st.stopRequested && r.closeCalls == st.closeCalls && (st.sendClosed ==> r.sendClosed)
  {
    var Submitting(sends, closing) := st.threads.At(t);
    assert SendsShape(SendsOf(st.threads.At(t)), |cfg.profiles|);
    var s := sends[0].stream;
    st.(streams := st.streams[s := st.streams[s].(stamps := st.streams[s].stamps + [st.now])],
        forward := Enqueue(st.forward, Send(s, Stamp(sends[0].data, st.now))),
        threads := st.threads.With(t, Submitting(sends[1..], closing)))
  }

  function ServeApply(cfg: Config, st: State, s: nat, n: nat): (r: State)
    requires Shape(cfg, st) && s < |st.streams| && n <= |st.forward.channels[s]|
    ensures r.stopRequested == st.stopRequested && r.closeCalls == st.closeCalls && (st.sendClosed ==> r.sendClosed)
  {
    var p := ParseAll(st.serverBuffers[s] + st.forward.channels[s][..n], cfg.serverMessageSize);
    var delivered := st.(forward := Deliver(st.forward, s, n), serverBuffers := st.serverBuffers[s := p.rest]);
    if p.error.Some? then delivered.(failed := true)
    else delivered.(serverSends := OnStream(p.frames, s),
                    streams := st.streams[s := st.streams[s].(served := st.streams[s].served + |p.frames|)])
  }

  /** The client's receive handler on one stream: extract, count and time each frame. */
  function Consume(x: ClientStream, p: Parsed, readings: seq<nat>): ClientStream
    requires |readings| == |p.frames| && forall i | 0 <= i < |p.frames| :: |p.frames[i]| >= HEADER_SIZE
  {
    x.(receiveBuffer := p.rest,
       counters := CountEchoed(x.counters, |p.frames|),
       consumed := x.consumed + p.frames,
       latencies := x.latencies + Latencies(p.frames, readings))
  }

  function EchoApply(cfg: Config, st: State, s: nat, n: nat, readings: seq<nat>): (r: State)
    requires Shape(cfg, st) && s < |st.streams| && n <= |st.backward.channels[s]|
    requires |readings| == |EchoParse(cfg, st, s, n).frames|
    ensures r.stopRequested == st.stopRequested && r.closeCalls == st.closeCalls && (st.sendClosed ==> r.sendClosed)
  {
    var chunk, size := st.backward.channels[s][..n], cfg.profiles[s].messageSize;
    ParsedFramesHaveHeaders(st.streams[s].receiveBuffer + chunk, size);
    var p := EchoParse(cfg, st, s, n);
    st.(now := LastReading(st.now, readings),
        backward := Deliver(st.backward, s, n),
        streams := st.streams[s := Consume(st.streams[s], p, readings)],
        failed := p.error.Some?,
        threads := st.threads.With(ReceiveLoop, if cfg.paced then Idle else OwesPump(SIZE_MAX)))
  }

  ghost function Apply(cfg: Config, st: State, a: Action): State
    requires Enabled(cfg, st, a)
  {
    match a
    case StartReceiving => st.(started := true)
    case RequestStop => st.(stopRequested := true, threads := st.threads.With(MainThread, OwesPump(0)))
    case PacerTick => st.(threads := st.threads.With(PacerThread, OwesPump(if st.stopRequested then 0 else 1)))
    case Pump(t, picks) => PumpApply(cfg, st, t, picks)
    case Submit(t) => SubmitApply(cfg, st, t)
    case FinishPump(t) =>
      st.(closeCalls := if st.threads.At(t).closing then st.closeCalls + 1 else st.closeCalls,
          threads := st.threads.With(t, Idle))
    case ClientDequeue => st.(forward := Dequeue(st.forward))
    case ClientWrite(n) => st.(forward := WriteBytes(st.forward, n))
    case ShutdownWrite => st.(finSent := true)
    case DeliverToServer(s, n) => ServeApply(cfg, st, s, n)
    case ServerSubmit =>
      st.(backward := Enqueue(st.backward, st.serverSends[0]), serverSends := st.serverSends[1..])
    case ServerDequeue => st.(backward := Dequeue(st.backward))
    case ServerWrite(n) => st.(backward := WriteBytes(st.backward, n))
    case ServerEndOfFile => st.(serverClosed := true)
    case DeliverToClient(s, n, readings) => EchoApply(cfg, st, s, n, readings)
    case Tick(time) => st.(now := time)
  }

  /** A run from an initial state; `states[i + 1]` is reached from `states[i]` by `actions[i]`. */
  ghost predicate IsRun(cfg: Config, states: seq<State>, actions: seq<Action>) {
    && ValidConfig(cfg)
    && |states| == |actions| + 1
    && states[0].now < TWO_TO_64 && states[0] == InitialState(cfg, states[0].now)
    && forall i | 0 <= i < |actions| ::
         Enabled(cfg, states[i], actions[i]) && states[i + 1] == Apply(cfg, states[i], actions[i])
  }

  ghost predicate Reachable(cfg: Config, st: State) {
    exists states, actions :: IsRun(cfg, states, actions) && states[|actions|] == st
  }

  // ---------------------------------------------------------------- one stream of the pipeline

  /** All the places where bytes of one stream can be, from the client's receive buffer back
      to the frames its sending thread still holds. */
  datatype View = View(
    x: ClientStream,
    returning: Bytes,      // server's local messages, its queue, its current write, the channel
    serverBuffer: Bytes,
    outgoing: Bytes,       // client's queue, its current write, the channel
    local: seq<Bytes>)     // built under the lock, not yet submitted

  /** The thread that may build frames: the main thread until the receive loop starts, then
      the pacer or the receive loop. */
  function Builder(cfg: Config, st: State): ThreadId {
    if !st.started then MainThread else if cfg.paced then PacerThread else ReceiveLoop
  }

  function LocalSends(cfg: Config, st: State): seq<Send>
    requires Shape(cfg, st)
  {
    SendsOf(st.threads.At(Builder(cfg, st)))
  }

  function ViewOf(cfg: Config, st: State, s: nat): View
    requires Shape(cfg, st) && s < |st.streams|
  {
    View(st.streams[s],
         InFlight(st.backward, s) + BytesFor(st.serverSends, s),
         st.serverBuffers[s],
         InFlight(st.forward, s),
         DataFor(LocalSends(cfg, st), s))
  }

  /** With `frames` the frames submitted so far: the client has consumed a prefix of them,
      the server has extracted a longer prefix, and the bytes between those two points, and
      after them, are where the view says, in order. Neither receive buffer holds a
      complete frame. */
  ghost predicate PositionsOk(frames: seq<Bytes>, clientSize: nat, serverSize: nat, v: View) {
    var c := |v.x.consumed|;
    && c <= v.x.served <= |frames|
    && v.x.consumed == frames[..c]
    && v.x.receiveBuffer + v.returning == Concat(frames[c..v.x.served])
    && v.serverBuffer + v.outgoing == Concat(frames[v.x.served..])
    && TryPeekFrameSize(v.x.receiveBuffer, clientSize).Incomplete?
    && TryPeekFrameSize(v.serverBuffer, serverSize).Incomplete?
  }

  /** No stamp lies in the future, and each latency is time that has really passed. */
  ghost predicate ClockOk(x: ClientStream, now: nat) {
    && (forall i | 0 <= i < |x.stamps| :: x.stamps[i] <= now)
    && |x.latencies| == |x.consumed| <= |x.stamps|
    && (forall i | 0 <= i < |x.latencies| :: x.stamps[i] + x.latencies[i] <= now)
  }

  ghost predicate ViewOk(p: Profile, serverSize: nat, now: nat, v: View)
    requires ValidProfile(p)
  {
    && PositionsOk(BuiltFrames(p.messageSize, v.x.stamps), p.messageSize, serverSize, v)
    && Tracks(p, v.x.counters, |v.x.stamps|, |v.x.consumed|, v.local)
    && ClockOk(v.x, now)
  }

  lemma SubmitPositions(frames: seq<Bytes>, frame: Bytes, clientSize: nat, serverSize: nat, v: View)
    requires PositionsOk(frames, clientSize, serverSize, v)
    ensures PositionsOk(frames + [frame], clientSize, serverSize, v.(outgoing := v.outgoing + frame))
  {
    var c, d := |v.x.consumed|, v.x.served;
    var longer := frames + [frame];
    assert longer[..c] == frames[..c] && longer[c..d] == frames[c..d] && longer[d..] == frames[d..] + [frame];
    ConcatAppend(frames[d..], [frame]);
    assert Concat([frame]) == frame + [] == frame;
    assert v.serverBuffer + (v.outgoing + frame) == (v.serverBuffer + v.outgoing) + frame;
  }

  /** Parsing a delivered piece of `frames[from..to]` yields the next of those frames. */
  lemma ParseNext(frames: seq<Bytes>, from: nat, to: nat, fallback: nat, a: Bytes, b: Bytes)
    requires SelfDelimiting(frames, fallback) && from <= to <= |frames|
    requires a + b == Concat(frames[from..to])
    ensures var p := ParseAll(a, fallback);
            && p.error.None?
            && from + |p.frames| <= to
            && p.frames == frames[from..from + |p.frames|]
            && p.rest + b == Concat(frames[from + |p.frames|..to])
            && TryPeekFrameSize(p.rest, fallback).Incomplete?
  {
    hide TryPeekFrameSize, ParseAll, Concat;
    var part := frames[from..to];
    assert SelfDelimiting(part, fallback) by {
      forall i, tail: Bytes | 0 <= i < |part|
        ensures TryPeekFrameSize(part[i] + tail, fallback) == Complete(|part[i]|)
      {
        assert part[i] == frames[from + i];
      }
    }
    ParsePrefix(part, a, b, fallback);
    var m := |ParseAll(a, fallback).frames|;
    assert part[m..] == frames[from + m..to];
    assert part[..m] == frames[from..from + m];
  }

  lemma ServePositions(frames: seq<Bytes>, clientSize: nat, serverSize: nat, v: View, chunk: Bytes, later: Bytes)
    requires PositionsOk(frames, clientSize, serverSize, v) && v.outgoing == chunk + later
    requires SelfDelimiting(frames, serverSize)
    ensures var parsed := ParseAll(v.serverBuffer + chunk, serverSize);
            && parsed.error.None?
            && PositionsOk(frames, clientSize, serverSize,
                           v.(x := v.x.(served := v.x.served + |parsed.frames|),
                              returning := v.returning + Concat(parsed.frames),
                              serverBuffer := parsed.rest,
                              outgoing := later))
  {
    hide TryPeekFrameSize, ParseAll, Concat;
    var c, d := |v.x.consumed|, v.x.served;
    var a := v.serverBuffer + chunk;
    assert a + later == v.serverBuffer + v.outgoing;
    assert frames[d..|frames|] == frames[d..];
    ParseNext(frames, d, |frames|, serverSize, a, later);
    var parsed := ParseAll(a, serverSize);
    var m := |parsed.frames|;
    assert frames[c..d + m] == frames[c..d] + parsed.frames;
    ConcatAppend(frames[c..d], parsed.frames);
    assert v.x.receiveBuffer + (v.returning + Concat(parsed.frames))
        == (v.x.receiveBuffer + v.returning) + Concat(parsed.frames);
    assert frames[d + m..|frames|] == frames[d + m..];
  }

  lemma EchoPositions(frames: seq<Bytes>, clientSize: nat, serverSize: nat, v: View, chunk: Bytes, later: Bytes)
    requires PositionsOk(frames, clientSize, serverSize, v) && v.returning == chunk + later
    requires SelfDelimiting(frames, clientSize)
    ensures var parsed := ParseAll(v.x.receiveBuffer + chunk, clientSize);
            && parsed.error.None?
            && |v.x.consumed| + |parsed.frames| <= |frames|
            && parsed.frames == frames[|v.x.consumed|..|v.x.consumed| + |parsed.frames|]
            && PositionsOk(frames, clientSize, serverSize,
                           v.(x := v.x.(receiveBuffer := parsed.rest, consumed := v.x.consumed + parsed.frames),
                              returning := later))
  {
    hide TryPeekFrameSize, ParseAll, Concat;
    var c, d := |v.x.consumed|, v.x.served;
    var a := v.x.receiveBuffer + chunk;
    assert a + later == v.x.receiveBuffer + v.returning;
    ParseNext(frames, c, d, clientSize, a, later);
    var m := |ParseAll(a, clientSize).frames|;
    assert frames[..c + m] == frames[..c] + frames[c..c + m];
  }

  lemma StampReadsBack(sequence: nat, size: nat, stamp: nat)
    requires HEADER_SIZE <= size < TWO_TO_32 && stamp < TWO_TO_64
    ensures ReadHeader(Frame(sequence, size, stamp)).timestamp == stamp
    ensures ReadHeader(Frame(sequence, size, stamp)).sequence == sequence % TWO_TO_64
  {
    hide Frame, ReadHeader, TryPeekFrameSize;
    PeekFrame(sequence, size, stamp, [], size);
    assert Frame(sequence, size, stamp) + [] == Frame(sequence, size, stamp);
  }

  /** A consumed frame carries the stamp it was submitted with, so its latency is the true
      elapsed time: the unsigned subtraction does not wrap. */
  lemma LatencyIsElapsedTime(size: nat, stamps: seq<nat>, from: nat, frames: seq<Bytes>, now: nat, readings: seq<nat>)
    requires HEADER_SIZE <= size < TWO_TO_32 && from + |frames| <= |stamps|
    requires frames == BuiltFrames(size, stamps)[from..from + |frames|]
    requires |readings| == |frames| && Readings(now, readings)
    requires forall i | 0 <= i < |stamps| :: stamps[i] <= now < TWO_TO_64
    ensures forall i | 0 <= i < |frames| :: |frames[i]| >= HEADER_SIZE
    ensures forall i | 0 <= i < |frames| :: Latencies(frames, readings)[i] == readings[i] - stamps[from + i]
  {
    hide Frame, ReadHeader;
    forall i | 0 <= i < |frames|
      ensures |frames[i]| >= HEADER_SIZE
      ensures (readings[i] - ReadHeader(frames[i]).timestamp) % TWO_TO_64 == readings[i] - stamps[from + i]
    {
      StampReadsBack(from + i, size, stamps[from + i]);
      assert frames[i] == Frame(from + i, size, stamps[from + i]);
    }
  }

  lemma BuiltFramesSnoc(size: nat, stamps: seq<nat>, stamp: nat)
    requires size >= HEADER_SIZE
    ensures BuiltFrames(size, stamps + [stamp]) == BuiltFrames(size, stamps) + [Frame(|stamps|, size, stamp)]
  {
    var a, b := BuiltFrames(size, stamps + [stamp]), BuiltFrames(size, stamps) + [Frame(|stamps|, size, stamp)];
    forall i | 0 <= i < |a|
      ensures a[i] == b[i]
    {
      assert (stamps + [stamp])[i] == if i < |stamps| then stamps[i] else stamp;
    }
  }

  lemma SubmitView(p: Profile, serverSize: nat, now: nat, v: View)
    requires ValidProfile(p) && ViewOk(p, serverSize, now, v) && v.local != []
    ensures |v.local[0]| >= HEADER_SIZE
    ensures ViewOk(p, serverSize, now,
                   v.(x := v.x.(stamps := v.x.stamps + [now]),
                      outgoing := v.outgoing + Stamp(v.local[0], now),
                      local := v.local[1..]))
  {
    hide TryPeekFrameSize, Concat, Frame, Stamp;
    var x := v.x;
    SubmitFront(p, x.counters, |x.stamps|, |x.consumed|, v.local, now);
    BuiltFramesSnoc(p.messageSize, x.stamps, now);
    SubmitPositions(BuiltFrames(p.messageSize, x.stamps), Frame(|x.stamps|, p.messageSize, now),
                    p.messageSize, serverSize, v);
  }

  lemma ServeView(p: Profile, serverSize: nat, now: nat, v: View, chunk: Bytes, later: Bytes)
    requires ValidProfile(p) && ViewOk(p, serverSize, now, v) && v.outgoing == chunk + later
    ensures var parsed := ParseAll(v.serverBuffer + chunk, serverSize);
            && parsed.error.None?
            && ViewOk(p, serverSize, now,
                      v.(x := v.x.(served := v.x.served + |parsed.frames|),
                         returning := v.returning + Concat(parsed.frames),
                         serverBuffer := parsed.rest,
                         outgoing := later))
  {
    BuiltFramesAreSelfDelimiting(p.messageSize, v.x.stamps, serverSize);
    ServePositions(BuiltFrames(p.messageSize, v.x.stamps), p.messageSize, serverSize, v, chunk, later);
  }

  lemma CountersAreNoPosition(frames: seq<Bytes>, clientSize: nat, serverSize: nat, v: View, counters: Counters,
      latencies: seq<nat>)
    requires PositionsOk(frames, clientSize, serverSize, v)
    ensures PositionsOk(frames, clientSize, serverSize, v.(x := v.x.(counters := counters, latencies := latencies)))
  {
    hide TryPeekFrameSize, Concat;
  }

  lemma CountersAreNoClock(x: ClientStream, y: ClientStream, now: nat)
    requires ClockOk(x, now) && y.stamps == x.stamps && y.consumed == x.consumed && y.latencies == x.latencies
    ensures ClockOk(y, now)
  {
  }

  lemma StampsArePast(x: ClientStream, now: nat)
    requires ClockOk(x, now)
    ensures forall i | 0 <= i < |x.stamps| :: x.stamps[i] <= now
  {
  }

  lemma LatenciesStayReal(x: ClientStream, now: nat, readings: seq<nat>, frames: seq<Bytes>, more: seq<nat>)
    requires ClockOk(x, now) && Readings(now, readings)
    requires |readings| == |frames| == |more| && |x.consumed| + |frames| <= |x.stamps|
    requires forall i | 0 <= i < |more| :: more[i] == readings[i] - x.stamps[|x.consumed| + i]
    ensures ClockOk(x.(consumed := x.consumed + frames, latencies := x.latencies + more), LastReading(now, readings))
  {
    var c, last, l := |x.consumed|, LastReading(now, readings), x.latencies + more;
    assert now <= last && forall i | 0 <= i < |more| :: readings[i] <= last;
    forall i | 0 <= i < |l|
      ensures x.stamps[i] + l[i] <= last
    {
      if i >= c {
        assert l[i] == more[i - c] == readings[i - c] - x.stamps[c + (i - c)];
      } else {
        assert l[i] == x.latencies[i];
      }
    }
  }

  lemma EchoClock(size: nat, x: ClientStream, frames: seq<Bytes>, now: nat, readings: seq<nat>)
    requires HEADER_SIZE <= size < TWO_TO_32 && now < TWO_TO_64
    requires ClockOk(x, now) && |x.consumed| + |frames| <= |x.stamps|
    requires frames == BuiltFrames(size, x.stamps)[|x.consumed|..|x.consumed| + |frames|]
    requires |readings| == |frames| && Readings(now, readings)
    ensures forall i | 0 <= i < |frames| :: |frames[i]| >= HEADER_SIZE
    ensures ClockOk(x.(consumed := x.consumed + frames, latencies := x.latencies + Latencies(frames, readings)),
                    LastReading(now, readings))
  {
    hide Frame, ReadHeader, ClockOk, Readings, Latencies, BuiltFrames;
    StampsArePast(x, now);
    LatencyIsElapsedTime(size, x.stamps, |x.consumed|, frames, now, readings);
    LatenciesStayReal(x, now, readings, frames, Latencies(frames, readings));
  }

  lemma EchoView(p: Profile, serverSize: nat, now: nat, v: View, chunk: Bytes, later: Bytes, readings: seq<nat>)
    requires ValidProfile(p) && ViewOk(p, serverSize, now, v) && v.returning == chunk + later && now < TWO_TO_64
    requires |readings| == |ParseAll(v.x.receiveBuffer + chunk, p.messageSize).frames| && Readings(now, readings)
    ensures var parsed := ParseAll(v.x.receiveBuffer + chunk, p.messageSize);
            && parsed.error.None?
            && (forall i | 0 <= i < |parsed.frames| :: |parsed.frames[i]| >= HEADER_SIZE)
            && ViewOk(p, serverSize, LastReading(now, readings),
                      v.(x := Consume(v.x, parsed, readings), returning := later))
  {
    hide TryPeekFrameSize, ParseAll, Concat, Frame, ReadHeader, PositionsOk, Numbered, ClockOk;
    var x := v.x;
    var c := |x.consumed|;
    BuiltFramesAreSelfDelimiting(p.messageSize, x.stamps, p.messageSize);
    EchoPositions(BuiltFrames(p.messageSize, x.stamps), p.messageSize, serverSize, v, chunk, later);
    ParsedFramesHaveHeaders(x.receiveBuffer + chunk, p.messageSize);
    var parsed := ParseAll(x.receiveBuffer + chunk, p.messageSize);
    var m := |parsed.frames|;
    WrapAdd(c, m);
    EchoClock(p.messageSize, x, parsed.frames, now, readings);
    CountersAreNoPosition(BuiltFrames(p.messageSize, x.stamps), p.messageSize, serverSize,
                          v.(x := x.(receiveBuffer := parsed.rest, consumed := x.consumed + parsed.frames),
                              returning := later),
                          CountEchoed(x.counters, m), x.latencies + Latencies(parsed.frames, readings));
    CountersAreNoClock(x.(consumed := x.consumed + parsed.frames,
                          latencies := x.latencies + Latencies(parsed.frames, readings)),
                       Consume(x, parsed, readings), LastReading(now, readings));
  }

  lemma PumpView(p: Profile, serverSize: nat, now: nat, v: View, counters: Counters, local: seq<Bytes>)
    requires ValidProfile(p) && ViewOk(p, serverSize, now, v)
    requires Tracks(p, counters, |v.x.stamps|, |v.x.consumed|, local)
    ensures ViewOk(p, serverSize, now, v.(x := v.x.(counters := counters), local := local))
  {
  }

  lemma TickView(p: Profile, serverSize: nat, now: nat, later: nat, v: View)
    requires ValidProfile(p) && ViewOk(p, serverSize, now, v) && now <= later
    ensures ViewOk(p, serverSize, later, v)
  {
  }

  /** A stream whose counters agree has nothing under way in either direction. */
  lemma DrainedViewIsEmpty(p: Profile, serverSize: nat, now: nat, v: View)
    requires ValidProfile(p) && ViewOk(p, serverSize, now, v)
    requires v.x.counters.nextSequence == v.x.counters.echoedMessages
    ensures v.local == [] && v.x.receiveBuffer == [] && v.returning == [] && v.serverBuffer == [] && v.outgoing == []
    ensures |v.x.consumed| == v.x.served == |v.x.stamps|
  {
    TrackedWindow(p, v.x.counters, |v.x.stamps|, |v.x.consumed|, v.local);
    assert |v.x.consumed| == v.x.served == |v.x.stamps|;
    assert |v.x.receiveBuffer + v.returning| == 0 && |v.serverBuffer + v.outgoing| == 0;
  }
}
