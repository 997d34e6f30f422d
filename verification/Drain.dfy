/** Draining: once stop is requested every action other than the passing of time and the
    pacer's empty passes uses up a finite amount of work, and the connection can only come
    to rest with every message echoed; then the half-close is done and the server finished,
    or the pacer's next pass does it. */
module Drain {
  import opened Wire
  import opened Reassembly
  import opened Transport
  import opened Window
  import opened Pipeline
  import opened PipelineInvariant
  import opened PipelineTheorems

  // ---------------------------------------------------------------- the work that is left

  function SendBytes(sends: seq<Send>): nat {
    if sends == [] then 0 else |sends[0].data| + SendBytes(sends[1..])
  }

  function Total(parts: seq<Bytes>): nat {
    if parts == [] then 0 else |parts[0]| + Total(parts[1..])
  }

  lemma {:induction false} SendBytesSnoc(sends: seq<Send>, send: Send)
    ensures SendBytes(sends + [send]) == SendBytes(sends) + |send.data|
  {
    if sends == [] {
    } else {
      SendBytesSnoc(sends[1..], send);
      assert (sends + [send])[1..] == sends[1..] + [send];
    }
  }

  lemma {:induction false} TotalUpdate(parts: seq<Bytes>, s: nat, part: Bytes)
    requires s < |parts|
    ensures Total(parts[s := part]) == Total(parts) - |parts[s]| + |part|
  {
    if s > 0 {
      TotalUpdate(parts[1..], s - 1, part);
      assert parts[s := part][1..] == parts[1..][s - 1 := part];
    } else {
      assert parts[s := part][1..] == parts[1..];
    }
  }

  lemma {:induction false} TotalIsLength(parts: seq<Bytes>)
    ensures Total(parts) == |Concat(parts)|
  {
    if parts == [] {
    } else {
      TotalIsLength(parts[1..]);
    }
  }

  lemma {:induction false} SendBytesOnStream(frames: seq<Bytes>, s: nat)
    ensures SendBytes(OnStream(frames, s)) == Total(frames)
  {
    if frames == [] {
    } else {
      SendBytesOnStream(frames[1..], s);
      assert OnStream(frames, s)[1..] == OnStream(frames[1..], s);
    }
  }

  function ForwardWork(link: Link): nat {
    10 * SendBytes(link.queue) + 9 * SendBytes(CurrentSends(link)) + 8 * Total(link.channels)
  }

  function BackwardWork(link: Link): nat {
    5 * SendBytes(link.queue) + 4 * SendBytes(CurrentSends(link)) + 3 * Total(link.channels)
  }

  function ThreadWork(a: Activity): nat {
    match a
    case Idle => 0
    case OwesPump(_) => 2
    case Submitting(sends, _) => 1 + 11 * SendBytes(sends)
  }

  /** A pass of the pacer costs nothing beyond the messages it still has to submit. */
  function PacerWork(a: Activity): nat {
    11 * SendBytes(SendsOf(a))
  }

  function Work(st: State): nat {
    ThreadWork(st.threads.main) + ThreadWork(st.threads.receive) + PacerWork(st.threads.pacer)
    + ForwardWork(st.forward) + 7 * Total(st.serverBuffers) + 6 * SendBytes(st.serverSends) + BackwardWork(st.backward)
    + (if st.finSent then 0 else 1) + (if st.serverClosed then 0 else 1)
  }

  lemma DequeueWork(link: Link)
    requires link.current.None? && link.queue != [] && link.queue[0].data != []
    ensures ForwardWork(Dequeue(link)) < ForwardWork(link) && BackwardWork(Dequeue(link)) < BackwardWork(link)
  {
    assert SendBytes([link.queue[0]]) == |link.queue[0].data|;
  }

  lemma WriteWork(link: Link, n: nat)
    requires link.current.Some? && link.current.value.stream < |link.channels|
    requires 0 < n <= |link.current.value.data|
    ensures ForwardWork(WriteBytes(link, n)) < ForwardWork(link)
        && BackwardWork(WriteBytes(link, n)) < BackwardWork(link)
  {
    var Send(s, data) := link.current.value;
    TotalUpdate(link.channels, s, link.channels[s] + data[..n]);
    assert SendBytes([link.current.value]) == |data|;
    assert n < |data| ==> SendBytes([Send(s, data[n..])]) == |data| - n;
  }

  lemma DeliverWork(link: Link, s: nat, n: nat)
    requires s < |link.channels| && n <= |link.channels[s]|
    ensures ForwardWork(Deliver(link, s, n)) == ForwardWork(link) - 8 * n
    ensures BackwardWork(Deliver(link, s, n)) == BackwardWork(link) - 3 * n
  {
    TotalUpdate(link.channels, s, link.channels[s][n..]);
    assert CurrentSends(Deliver(link, s, n)) == CurrentSends(link);
  }

  lemma EnqueueWork(link: Link, send: Send)
    ensures ForwardWork(Enqueue(link, send)) == ForwardWork(link) + 10 * |send.data|
    ensures BackwardWork(Enqueue(link, send)) == BackwardWork(link) + 5 * |send.data|
  {
    SendBytesSnoc(link.queue, send);
    assert CurrentSends(Enqueue(link, send)) == CurrentSends(link);
  }

  lemma ServeWork(cfg: Config, st: State, s: nat, n: nat)
    requires Inv(cfg, st) && Enabled(cfg, st, DeliverToServer(s, n))
    ensures Work(ServeApply(cfg, st, s, n)) < Work(st)
  {
    hide ViewsOk, Discipline, Closing, ParseAll, TryPeekFrameSize, ForwardWork, BackwardWork, ThreadWork,
        PacerWork, Concat;
    var chunk := st.forward.channels[s][..n];
    var buffer := st.serverBuffers[s] + chunk;
    var p := ParseAll(buffer, cfg.serverMessageSize);
    ServeViews(cfg, st, s, n) by { ServeShape(cfg, st, s, n); }
    ParseAccountsForEveryByte(buffer, cfg.serverMessageSize);
    TotalIsLength(p.frames);
    SendBytesOnStream(p.frames, s);
    TotalUpdate(st.serverBuffers, s, p.rest);
    DeliverWork(st.forward, s, n);
    assert |p.rest| + Total(p.frames) == |st.serverBuffers[s]| + n;
  }

  lemma SubmitWork(cfg: Config, st: State, t: ThreadId)
    requires Inv(cfg, st) && Enabled(cfg, st, Submit(t))
    ensures Work(SubmitApply(cfg, st, t)) < Work(st)
  {
    hide ViewsOk, Discipline, Closing, ForwardWork, BackwardWork, Stamp, LinkShape;
    var send := st.threads.At(t).sends[0];
    assert SendsShape(SendsOf(st.threads.At(t)), |cfg.profiles|);
    EnqueueWork(st.forward, Send(send.stream, Stamp(send.data, st.now)));
  }

  /** What goes on without end: the clock, and the passes of a pacer that has nothing to
      send any more. */
  predicate Background(a: Action) {
    || a.Tick? || a.PacerTick?
    || (a.Pump? && a.thread == PacerThread) || (a.FinishPump? && a.thread == PacerThread)
  }

  /** The work an action done by one link uses up. */
  lemma LinkUsesWork(cfg: Config, st: State, a: Action)
    requires Inv(cfg, st) && Enabled(cfg, st, a)
    requires a.ClientDequeue? || a.ClientWrite? || a.ServerDequeue? || a.ServerWrite?
    ensures Work(Apply(cfg, st, a)) < Work(st)
  {
    hide ViewsOk, Discipline, Closing, ForwardWork, BackwardWork, ThreadWork, PacerWork;
    match a
    case ClientDequeue => DequeueWork(st.forward);
    case ClientWrite(n) => WriteWork(st.forward, n);
    case ServerDequeue => DequeueWork(st.backward);
    case ServerWrite(n) => WriteWork(st.backward, n);
  }

  lemma ServerSubmitUsesWork(cfg: Config, st: State)
    requires Inv(cfg, st) && Enabled(cfg, st, ServerSubmit)
    ensures Work(Apply(cfg, st, ServerSubmit)) < Work(st)
  {
    hide ViewsOk, Discipline, Closing, ForwardWork, BackwardWork, ThreadWork, PacerWork;
    EnqueueWork(st.backward, st.serverSends[0]);
    assert st.serverSends[0].data != [];
  }

  lemma EchoUsesWork(cfg: Config, st: State, s: nat, n: nat, readings: seq<nat>)
    requires Inv(cfg, st) && Enabled(cfg, st, DeliverToClient(s, n, readings))
    ensures Work(Apply(cfg, st, DeliverToClient(s, n, readings))) < Work(st)
  {
    hide ViewsOk, Discipline, Closing, ForwardWork, BackwardWork, PacerWork, ParseAll, TryPeekFrameSize, Consume;
    DeliverWork(st.backward, s, n);
  }

  /** After a stop PumpSends builds nothing. */
  lemma PumpUsesWork(cfg: Config, st: State, t: ThreadId, picks: seq<Pick>)
    requires Inv(cfg, st) && Enabled(cfg, st, Pump(t, picks)) && st.stopRequested
    ensures Work(Apply(cfg, st, Pump(t, picks))) + (if t.PacerThread? then 0 else 1) <= Work(st)
  {
    hide ViewsOk, Discipline, Closing, ForwardWork, BackwardWork, ValidPicks, AfterPicks, LinkShape, SendsShape;
    assert picks == [] && Built(cfg.profiles, CountersOf(st.streams), []) == [];
  }

  lemma FinishUsesWork(cfg: Config, st: State, t: ThreadId)
    requires Inv(cfg, st) && Enabled(cfg, st, FinishPump(t))
    ensures Work(Apply(cfg, st, FinishPump(t))) + (if t.PacerThread? then 0 else 1) <= Work(st)
  {
    hide ViewsOk, Discipline, Closing, ForwardWork, BackwardWork, Shape;
  }

  lemma ClosingUsesWork(cfg: Config, st: State, a: Action)
    requires Inv(cfg, st) && Enabled(cfg, st, a) && (a.ShutdownWrite? || a.ServerEndOfFile? || a.PacerTick?)
    ensures Work(Apply(cfg, st, a)) + (if a.PacerTick? then 0 else 1) <= Work(st)
  {
    hide ViewsOk, Discipline, Closing, ForwardWork, BackwardWork, ThreadWork, Shape;
  }

  lemma StopStays(cfg: Config, st: State, a: Action)
    requires Enabled(cfg, st, a) && st.stopRequested
    ensures Apply(cfg, st, a).stopRequested
  {
    hide Shape, ValidPicks, EchoParse, Readings, PumpApply, SubmitApply, ServeApply, EchoApply, Enqueue, Dequeue,
        WriteBytes;
  }

  lemma SubmitUsesWork(cfg: Config, st: State, t: ThreadId)
    requires Inv(cfg, st) && Enabled(cfg, st, Submit(t))
    ensures Work(Apply(cfg, st, Submit(t))) < Work(st)
  {
    hide Work, Inv;
    SubmitWork(cfg, st, t);
  }

  lemma DeliveryUsesWork(cfg: Config, st: State, s: nat, n: nat)
    requires Inv(cfg, st) && Enabled(cfg, st, DeliverToServer(s, n))
    ensures Work(Apply(cfg, st, DeliverToServer(s, n))) < Work(st)
  {
    hide Work, Inv;
    ServeWork(cfg, st, s, n);
  }

  lemma TickUsesNoWork(cfg: Config, st: State, time: nat)
    requires Enabled(cfg, st, Tick(time))
    ensures Work(Apply(cfg, st, Tick(time))) == Work(st)
  {
  }

  lemma StoppedMeansStarted(cfg: Config, st: State)
    requires Inv(cfg, st) && st.stopRequested
    ensures !Enabled(cfg, st, StartReceiving)
  {
    hide ViewsOk, Closing, Shape;
  }

  lemma StopOnce(cfg: Config, st: State)
    requires st.stopRequested
    ensures !Enabled(cfg, st, RequestStop)
  {
    hide Shape;
  }

  /** Once stop is requested, every action but the clock's and the pacer's passes uses up
      work, and those use none. */
  lemma StepUsesWork(cfg: Config, st: State, a: Action)
    requires Inv(cfg, st) && Enabled(cfg, st, a) && st.stopRequested
    ensures Apply(cfg, st, a).stopRequested
    ensures Work(Apply(cfg, st, a)) + (if Background(a) then 0 else 1) <= Work(st)
  {
    hide Work, Inv;
    StopStays(cfg, st, a);
    hide Enabled, Apply;
    match a
    case Submit(t) => SubmitUsesWork(cfg, st, t);
    case ClientDequeue => LinkUsesWork(cfg, st, a);
    case ClientWrite(_) => LinkUsesWork(cfg, st, a);
    case ServerDequeue => LinkUsesWork(cfg, st, a);
    case ServerWrite(_) => LinkUsesWork(cfg, st, a);
    case DeliverToServer(s, n) => DeliveryUsesWork(cfg, st, s, n);
    case ServerSubmit => ServerSubmitUsesWork(cfg, st);
    case DeliverToClient(s, n, readings) => EchoUsesWork(cfg, st, s, n, readings);
    case Tick(time) => TickUsesNoWork(cfg, st, time);
    case StartReceiving => StoppedMeansStarted(cfg, st);
    case RequestStop => StopOnce(cfg, st);
    case Pump(t, picks) => PumpUsesWork(cfg, st, t, picks);
    case FinishPump(t) => FinishUsesWork(cfg, st, t);
    case _ => ClosingUsesWork(cfg, st, a);
  }

  function Foreground(actions: seq<Action>): nat {
    if actions == [] then 0
    else Foreground(actions[..|actions| - 1]) + if Background(actions[|actions| - 1]) then 0 else 1
  }

  /** So a run that has been told to stop takes at most `Work` further actions besides the
      clock and the pacer's empty passes: draining terminates under every schedule. */
  lemma {:induction false} DrainTerminates(cfg: Config, states: seq<State>, actions: seq<Action>, i: nat, j: nat)
    requires IsRun(cfg, states, actions) && i <= j <= |actions|
    requires states[i].stopRequested
    ensures states[j].stopRequested && Foreground(actions[i..j]) + Work(states[j]) <= Work(states[i])
  {
    hide Enabled, Apply, Work, Inv, Background;
    if i == j {
      assert actions[i..j] == [];
    } else {
      DrainTerminates(cfg, states, actions, i, j - 1);
      RunKeepsInv(cfg, states, actions, j - 1);
      StepUsesWork(cfg, states[j - 1], actions[j - 1]);
      assert actions[i..j][..j - i - 1] == actions[i..j - 1];
    }
  }

  // ---------------------------------------------------------------- coming to rest

  /** Nothing can happen but the passing of time and another pass of the pacer. */
  ghost predicate AtRest(cfg: Config, st: State) {
    forall a: Action | Enabled(cfg, st, a) :: a.Tick? || a.PacerTick?
  }

  lemma FirstFrameIsComplete(frames: seq<Bytes>, from: nat, to: nat, fallback: nat)
    requires SelfDelimiting(frames, fallback) && from < to <= |frames|
    ensures TryPeekFrameSize(Concat(frames[from..to]), fallback).Complete?
  {
    assert TryPeekFrameSize(frames[from] + Concat(frames[from..to][1..]), fallback) == Complete(|frames[from]|);
  }

  /** A receive buffer that holds a whole stretch of frames, and no complete one, is empty. */
  lemma NoCompleteFrameLeft(frames: seq<Bytes>, from: nat, to: nat, buffer: Bytes, fallback: nat)
    requires SelfDelimiting(frames, fallback) && from <= to <= |frames|
    requires buffer == Concat(frames[from..to]) && TryPeekFrameSize(buffer, fallback).Incomplete?
    ensures from == to && buffer == []
  {
    if from < to {
      FirstFrameIsComplete(frames, from, to, fallback);
    }
  }

  lemma QuietViewIsDrained(p: Profile, serverSize: nat, now: nat, v: View)
    requires ValidProfile(p) && ViewOk(p, serverSize, now, v)
    requires v.returning == [] && v.outgoing == [] && v.local == []
    ensures v.x.counters.nextSequence == v.x.counters.echoedMessages
  {
    hide TryPeekFrameSize, Concat;
    var frames := BuiltFrames(p.messageSize, v.x.stamps);
    BuiltFramesAreSelfDelimiting(p.messageSize, v.x.stamps, p.messageSize);
    BuiltFramesAreSelfDelimiting(p.messageSize, v.x.stamps, serverSize);
    assert v.x.receiveBuffer + [] == v.x.receiveBuffer && v.serverBuffer + [] == v.serverBuffer;
    assert frames[v.x.served..] == frames[v.x.served..|frames|];
    NoCompleteFrameLeft(frames, |v.x.consumed|, v.x.served, v.x.receiveBuffer, p.messageSize);
    NoCompleteFrameLeft(frames, v.x.served, |frames|, v.serverBuffer, serverSize);
  }

  lemma QuietMeansDrained(cfg: Config, st: State)
    requires Inv(cfg, st)
    requires !Busy(st.forward) && !Busy(st.backward) && st.serverSends == [] && LocalSends(cfg, st) == []
    requires forall s | 0 <= s < |st.streams| :: st.forward.channels[s] == [] && st.backward.channels[s] == []
    ensures Drained(st.streams)
  {
    hide ViewOk;
    forall s | 0 <= s < |st.streams|
      ensures st.streams[s].counters.nextSequence == st.streams[s].counters.echoedMessages
    {
      BytesForNone(s);
      var v := ViewOf(cfg, st, s);
      QuietViewIsDrained(cfg.profiles[s], cfg.serverMessageSize, st.now, v);
    }
  }

  lemma RestingThreads(cfg: Config, st: State, t: ThreadId)
    requires Inv(cfg, st) && AtRest(cfg, st)
    ensures st.threads.At(t).Idle?
  {
    hide ViewsOk, Discipline, Closing, Shape;
    assert !Enabled(cfg, st, Pump(t, []));
    assert !Enabled(cfg, st, Submit(t));
    assert !Enabled(cfg, st, FinishPump(t));
  }

  lemma StandingClock(now: nat, n: nat)
    requires now < TWO_TO_64
    ensures Readings(now, seq(n, _ => now))
  {
  }

  /** A waiting receive loop can always be given the next byte of a channel. */
  lemma SomeDelivery(cfg: Config, st: State, s: nat) returns (a: Action)
    requires Inv(cfg, st) && st.started && st.threads.receive.Idle?
    requires s < |st.streams| && st.backward.channels[s] != []
    ensures a.DeliverToClient? && Enabled(cfg, st, a)
  {
    hide ViewsOk, Discipline, Closing, ParseAll, Readings, LinkShape, SendsShape;
    var readings := seq(|EchoParse(cfg, st, s, 1).frames|, _ => st.now);
    StandingClock(st.now, |readings|);
    a := DeliverToClient(s, 1, readings);
  }

  lemma RestingLinks(cfg: Config, st: State)
    requires Inv(cfg, st) && AtRest(cfg, st) && st.started && st.threads.receive.Idle?
    requires !st.finSent && !st.serverClosed
    ensures !Busy(st.forward) && !Busy(st.backward) && st.serverSends == []
    ensures forall s | 0 <= s < |st.streams| :: st.forward.channels[s] == [] && st.backward.channels[s] == []
  {
    hide ViewsOk, Discipline, Closing, ParseAll, Readings;
    assert !Enabled(cfg, st, ClientDequeue) && !Enabled(cfg, st, ClientWrite(1));
    assert !Enabled(cfg, st, ServerDequeue) && !Enabled(cfg, st, ServerWrite(1));
    assert !Enabled(cfg, st, ServerSubmit);
    forall s | 0 <= s < |st.streams|
      ensures st.forward.channels[s] == [] && st.backward.channels[s] == []
    {
      assert !Enabled(cfg, st, DeliverToServer(s, 1));
      if st.backward.channels[s] != [] {
        var a := SomeDelivery(cfg, st, s);
        assert false;
      }
    }
  }

  /** The closing steps themselves cannot get stuck. */
  lemma RestingClose(cfg: Config, st: State)
    requires Inv(cfg, st) && AtRest(cfg, st) && st.sendClosed
    requires forall t :: st.threads.At(t).Idle?
    ensures st.serverClosed
  {
    hide ViewsOk, Discipline;
    DrainedIsEmpty(cfg, st);
    assert !Enabled(cfg, st, ShutdownWrite);
    assert !Enabled(cfg, st, ServerEndOfFile);
  }

  /** A stopped connection can only come to rest with every message ever built echoed and
      consumed; then the server has seen end-of-file, or the pacer's next pass closes. */
  lemma RestMeansFinished(cfg: Config, st: State)
    requires Reachable(cfg, st) && ValidConfig(cfg) && st.stopRequested && AtRest(cfg, st)
    ensures NothingUnderWay(cfg, st)
    ensures forall s | 0 <= s < |cfg.profiles| :: st.streams[s].consumed == SubmittedFrames(cfg, st, s)
    ensures st.serverClosed || (cfg.paced && !st.sendClosed && NextPassCloses(cfg, st))
  {
    hide Reachable, ViewsOk, Shape, AtRest, NothingUnderWay, NextPassCloses, SubmittedFrames;
    ReachableInv(cfg, st);
    forall t
      ensures st.threads.At(t).Idle?
    {
      RestingThreads(cfg, st, t);
    }
    assert st.threads.At(MainThread).Idle? && st.threads.At(ReceiveLoop).Idle?;
    if st.sendClosed {
      RestingClose(cfg, st);
    } else {
      RestingLinks(cfg, st);
      QuietMeansDrained(cfg, st);
      PacerCloses(cfg, st);
    }
    DrainedLosesNothing(cfg, st);
  }

  lemma ExtendRun(cfg: Config, states: seq<State>, actions: seq<Action>, a: Action)
    requires IsRun(cfg, states, actions) && Enabled(cfg, states[|actions|], a)
    ensures IsRun(cfg, states + [Apply(cfg, states[|actions|], a)], actions + [a])
  {
    hide Enabled, Apply;
    var longer, more := states + [Apply(cfg, states[|actions|], a)], actions + [a];
    forall i | 0 <= i < |more|
      ensures Enabled(cfg, longer[i], more[i]) && longer[i + 1] == Apply(cfg, longer[i], more[i])
    {
      if i < |actions| {
        assert more[i] == actions[i] && longer[i] == states[i] && longer[i + 1] == states[i + 1];
      }
    }
  }

  /** How far the pacer is from the end of its pass. */
  function PassLeft(st: State): nat {
    match st.threads.pacer
    case Idle => 0
    case Submitting(_, _) => 1
    case OwesPump(_) => 2
  }

  lemma PassEnds(cfg: Config, st: State, a: Action)
    requires Inv(cfg, st) && Enabled(cfg, st, a) && Background(a) && !a.Tick? && !a.PacerTick?
    ensures PassLeft(Apply(cfg, st, a)) < PassLeft(st)
  {
    hide ViewsOk, Discipline, Closing, AfterPicks, Built;
  }

  function OpenSends(st: State): nat {
    if st.sendClosed then 0 else 1
  }

  lemma RunShape(cfg: Config, states: seq<State>, actions: seq<Action>)
    requires IsRun(cfg, states, actions)
    ensures ValidConfig(cfg) && |states| == |actions| + 1
  {
  }

  /** And it can always get there: every run that has been told to stop, with a pacer or
      without, extends to one in which every message has been echoed and the server has
      finished. */
  lemma {:induction false} StoppedRunsCanFinish(cfg: Config, states: seq<State>, actions: seq<Action>)
    returns (states': seq<State>, actions': seq<Action>)
    requires IsRun(cfg, states, actions) && states[|actions|].stopRequested
    ensures IsRun(cfg, states', actions') && actions <= actions'
    ensures states'[|actions'|].serverClosed && NothingUnderWay(cfg, states'[|actions'|])
    decreases OpenSends(states[|actions|]), Work(states[|actions|]), PassLeft(states[|actions|])
  {
    hide Enabled, Apply, Work, Inv, NothingUnderWay, IsRun, Background, PassLeft;
    RunShape(cfg, states, actions);
    var st := states[|actions|];
    RunKeepsInv(cfg, states, actions, |actions|);
    if a: Action :| Enabled(cfg, st, a) && !a.Tick? && !a.PacerTick? {
      StepUsesWork(cfg, st, a);
      StepKeepsClosed(cfg, st, a);
      if Background(a) {
        PassEnds(cfg, st, a);
      }
      ExtendRun(cfg, states, actions, a);
      states', actions' := StoppedRunsCanFinish(cfg, states + [Apply(cfg, st, a)], actions + [a]);
    } else {
      assert Reachable(cfg, st);
      RestMeansFinished(cfg, st);
      if st.serverClosed {
        states', actions' := states, actions;
      } else {
        var awake := Apply(cfg, st, PacerTick);
        ExtendRun(cfg, states, actions, PacerTick);
        ExtendRun(cfg, states + [awake], actions + [PacerTick], Pump(PacerThread, []));
        states', actions' := StoppedRunsCanFinish(cfg, states + [awake] + [Apply(cfg, awake, Pump(PacerThread, []))],
                                                  actions + [PacerTick] + [Pump(PacerThread, [])]);
        assert actions <= actions + [PacerTick] <= actions + [PacerTick] + [Pump(PacerThread, [])];
      }
    }
  }

  /** How far the main thread is from being able to ask for the stop. */
  function MainLeft(st: State): nat {
    match st.threads.main
    case Idle => 0
    case Submitting(sends, _) => 1 + |sends|
    case OwesPump(_) => 1
  }

  function CallLeft(st: State): nat {
    if st.threads.main.OwesPump? then 1 else 0
  }

  function StartLeft(st: State): nat {
    if st.started then 0 else 1
  }

  /** What the main thread does next on its way to the stop. */
  function NextOfMain(st: State): Action {
    match st.threads.main
    case Idle => if st.started then RequestStop else StartReceiving
    case Submitting(sends, _) => if sends == [] then FinishPump(MainThread) else Submit(MainThread)
    case OwesPump(_) => Pump(MainThread, [])
  }

  lemma MainGoesOn(cfg: Config, st: State)
    requires Inv(cfg, st) && !st.stopRequested
    ensures Enabled(cfg, st, NextOfMain(st))
    ensures var st' := Apply(cfg, st, NextOfMain(st));
            || st'.stopRequested
            || StartLeft(st') < StartLeft(st)
            || (StartLeft(st') == StartLeft(st) && CallLeft(st') < CallLeft(st))
            || (StartLeft(st') == StartLeft(st) && CallLeft(st') == CallLeft(st) && MainLeft(st') < MainLeft(st))
  {
    hide ViewsOk, Discipline, Closing;
    assert ValidPicks(cfg.profiles, CountersOf(st.streams), []);
  }

  /** Every run extends to one that has been told to stop. */
  lemma {:induction false} EveryRunCanStop(cfg: Config, states: seq<State>, actions: seq<Action>)
    returns (states': seq<State>, actions': seq<Action>)
    requires IsRun(cfg, states, actions)
    ensures IsRun(cfg, states', actions') && actions <= actions' && |states'| == |actions'| + 1
    ensures states'[|actions'|].stopRequested
    decreases StartLeft(states[|actions|]), CallLeft(states[|actions|]), MainLeft(states[|actions|])
  {
    hide Enabled, Apply, Inv, IsRun, NextOfMain, StartLeft, CallLeft, MainLeft;
    RunShape(cfg, states, actions);
    var st := states[|actions|];
    RunKeepsInv(cfg, states, actions, |actions|);
    states', actions' := states, actions;
    if !st.stopRequested {
      var a := NextOfMain(st);
      MainGoesOn(cfg, st);
      ExtendRun(cfg, states, actions, a);
      states', actions' := states + [Apply(cfg, st, a)], actions + [a];
      if !Apply(cfg, st, a).stopRequested {
        states', actions' := EveryRunCanStop(cfg, states', actions');
      }
    }
  }

  /** And so every run, from the very first state on, extends to one in which everything built
      has been echoed and the server has finished. */
  lemma EveryRunCanFinish(cfg: Config, states: seq<State>, actions: seq<Action>)
    returns (states': seq<State>, actions': seq<Action>)
    requires IsRun(cfg, states, actions)
    ensures IsRun(cfg, states', actions') && actions <= actions' && |states'| == |actions'| + 1
    ensures states'[|actions'|].serverClosed && NothingUnderWay(cfg, states'[|actions'|])
  {
    hide IsRun, NothingUnderWay;
    states', actions' := EveryRunCanStop(cfg, states, actions);
    states', actions' := StoppedRunsCanFinish(cfg, states', actions');
    RunShape(cfg, states', actions');
  }
}
