/** The imperative PumpSends and the protocol machine: whatever the stop flag does while the
    lock is held, the call is a Pump action, with a RequestStop before or after it if the
    flag was raised meanwhile. */
module Refinement {
  import opened Wire
  import opened Reassembly
  import opened Transport
  import opened Window
  import opened Pacing
  import opened Rotation
  import P = Pipeline
  import I = PipelineInvariant
  import L = LoadClient
  import LS = LoadServer
  import Starvation
  import Resumption

  /** The controller's scheduling state beside the counters. */
  function DialOf(state: L.ConnectionState, now: nat): (d: Starvation.Dial)
    ensures |d.times| == |state.streams|
  {
    Starvation.Dial(seq(|state.streams|, i requires 0 <= i < |state.streams| => state.streams[i].nextSendTime),
                    state.nextOrdinal, now)
  }

  /** The machine's state and the controller's describe the same connection. */
  predicate Agrees(st: P.State, state: L.ConnectionState) {
    P.CountersOf(st.streams) == L.CountersOf(state.streams) && st.sendClosed == state.sendClosed
  }

  ghost predicate CanRun(cfg: P.Config, st: P.State, actions: seq<P.Action>)
    decreases |actions|, 0
  {
    actions == [] ||
    (P.Enabled(cfg, st, actions[0]) && CanRun(cfg, P.Apply(cfg, st, actions[0]), actions[1..]))
  }

  ghost function Run(cfg: P.Config, st: P.State, actions: seq<P.Action>): P.State
    requires CanRun(cfg, st, actions)
    decreases |actions|, 1
  {
    if actions == [] then st else Run(cfg, P.Apply(cfg, st, actions[0]), actions[1..])
  }

  /** A flag raised during a call that built something takes effect after it. */
  function PumpActions(t: P.ThreadId, picks: seq<Pick>, raised: bool): seq<P.Action> {
    if !raised then [P.Pump(t, picks)]
    else if picks == [] then [P.RequestStop, P.Pump(t, picks)]
    else [P.Pump(t, picks), P.RequestStop]
  }

  lemma LastPickHadRoom(profiles: seq<Profile>, counters: seq<Counters>, picks: seq<Pick>)
    requires |profiles| == |counters| && ValidPicks(profiles, counters, picks) && picks != []
    ensures var pick := picks[|picks| - 1];
            pick.ordinal < |profiles| &&
            WindowOpen(profiles[pick.ordinal], AfterPicks(counters, picks[..|picks| - 1])[pick.ordinal])
  {
  }

  lemma BuiltIsOutstanding(p: Profile, c: Counters)
    requires ValidProfile(p) && WindowOpen(p, c)
    ensures CountBuilt(c).nextSequence != CountBuilt(c).echoedMessages
  {
    assert Outstanding(CountBuilt(c)) == Outstanding(c) + 1;
  }

  /** A connection that has just built something is not drained. */
  lemma BuildingIsNotDrained(profiles: seq<Profile>, counters: seq<Counters>, picks: seq<Pick>)
    requires |profiles| == |counters| && ValidProfiles(profiles)
    requires ValidPicks(profiles, counters, picks) && picks != []
    ensures !AllDrained(AfterPicks(counters, picks))
  {
    hide ValidPicks, WindowOpen;
    var earlier, pick := picks[..|picks| - 1], picks[|picks| - 1];
    LastPickHadRoom(profiles, counters, picks);
    var c := AfterPicks(counters, earlier)[pick.ordinal];
    BuiltIsOutstanding(profiles[pick.ordinal], c);
    assert AfterPicks(counters, picks)[pick.ordinal] == CountBuilt(c);
  }

  lemma OneStep(cfg: P.Config, st: P.State, a: P.Action)
    requires P.Enabled(cfg, st, a)
    ensures CanRun(cfg, st, [a]) && Run(cfg, st, [a]) == P.Apply(cfg, st, a)
  {
    hide P.Enabled, P.Apply;
    assert [a][1..] == [];
  }

  lemma TwoSteps(cfg: P.Config, st: P.State, a: P.Action, b: P.Action)
    requires P.Enabled(cfg, st, a) && P.Enabled(cfg, P.Apply(cfg, st, a), b)
    ensures CanRun(cfg, st, [a, b]) && Run(cfg, st, [a, b]) == P.Apply(cfg, P.Apply(cfg, st, a), b)
  {
    hide P.Enabled, P.Apply;
    OneStep(cfg, P.Apply(cfg, st, a), b);
    assert [a, b][1..] == [b];
  }

  /** One Pump action that built what PumpSends built and decided as it did. */
  lemma PumpMatches(cfg: P.Config, st: P.State, t: P.ThreadId, picks: seq<Pick>, after: L.ConnectionState)
    requires P.Enabled(cfg, st, P.Pump(t, picks)) && !st.sendClosed
    requires L.CountersOf(after.streams) == AfterPicks(P.CountersOf(st.streams), picks)
    requires after.sendClosed == (st.stopRequested && AllDrained(L.CountersOf(after.streams)))
    ensures var st' := P.Apply(cfg, st, P.Pump(t, picks));
            && Agrees(st', after)
            && st' == st.(streams := st'.streams, sendClosed := after.sendClosed,
                          threads := st.threads.With(t, P.Submitting(Built(cfg.profiles, P.CountersOf(st.streams),
                              picks),
                                                                    after.sendClosed)))
  {
    hide AfterPicks, Built, ValidPicks, P.Shape;
    var st' := P.Apply(cfg, st, P.Pump(t, picks));
    assert P.CountersOf(st'.streams) == L.CountersOf(after.streams);
    assert forall s | 0 <= s < |st'.streams| :: st'.streams[s].counters == L.CountersOf(after.streams)[s];
    assert P.Drained(st'.streams) <==> AllDrained(L.CountersOf(after.streams));
  }

  lemma AgreeingSchedules(st: P.State, state: L.ConnectionState, now: nat)
    requires P.CountersOf(st.streams) == L.CountersOf(state.streams)
    ensures |st.streams| == |state.streams|
    ensures Starvation.ScheduleAt(st, DialOf(state, now)) == L.ScheduleOf(state, now)
  {
    assert |st.streams| == |P.CountersOf(st.streams)| == |L.CountersOf(state.streams)|;
    forall i | 0 <= i < |st.streams|
      ensures st.streams[i].counters == state.streams[i].counters
    {
      assert P.CountersOf(st.streams)[i] == L.CountersOf(state.streams)[i];
    }
  }

  lemma StoppedShape(cfg: P.Config, st: P.State)
    requires P.Enabled(cfg, st, P.RequestStop)
    ensures P.Shape(cfg, P.Apply(cfg, st, P.RequestStop))
  {
    hide LinkShape, P.SendsShape;
    var threads := P.Apply(cfg, st, P.RequestStop).threads;
    assert threads.pacer == st.threads.pacer && threads.receive == st.threads.receive;
    forall u: P.ThreadId
      ensures P.SendsShape(P.SendsOf(threads.At(u)), |cfg.profiles|)
    {
      if u == P.MainThread {
        assert P.SendsOf(threads.At(u)) == P.SendsOf(st.threads.At(u)) == [];
      } else {
        assert threads.At(u) == st.threads.At(u);
      }
    }
  }

  lemma PumpedShape(cfg: P.Config, st: P.State, t: P.ThreadId, picks: seq<Pick>)
    requires P.Enabled(cfg, st, P.Pump(t, picks))
    ensures P.Shape(cfg, P.Apply(cfg, st, P.Pump(t, picks)))
  {
    hide P.Shape, P.PumpApply;
    I.PumpShape(cfg, st, t, picks);
  }

  /** Every PumpSends call on an open connection is a run of the machine that ends in the
      same counters, with the same messages to submit and the same close decision; nothing
      but the stop flag moves besides. */
  lemma PumpSendsIsAPump(c: L.LoadClientController, id: nat, cfg: P.Config, st: P.State, t: P.ThreadId,
                         before: L.ConnectionState, begun: nat, after: L.ConnectionState, now: nat,
                         sends: seq<Send>, picks: seq<Pick>, sels: seq<Selection>, slots: seq<Slot>, stopAfter: bool)
    requires P.ValidConfig(cfg) && P.Shape(cfg, st) && !st.failed
    requires c.profiles == cfg.profiles && c.Configured() && cfg.sending == c.ShouldSend(id)
    requires Agrees(st, before) && !before.sendClosed && |before.streams| == |cfg.profiles|
    requires st.threads.At(t).OwesPump? && |sends| <= st.threads.At(t).limit
    // the stop flag is only ever raised, and by the main thread
    requires st.stopRequested ==> stopAfter
    requires stopAfter && !st.stopRequested ==> P.Enabled(cfg, st, P.RequestStop)
    // what PumpSends promises
    requires c.Pumped(before, begun, after, now, sends, picks, sels, slots)
    requires !c.ShouldSend(id) || st.stopRequested ==> sends == []
    requires after.sendClosed == (stopAfter && AllDrained(L.CountersOf(after.streams)))
    ensures var actions := PumpActions(t, picks, stopAfter && !st.stopRequested);
            && CanRun(cfg, st, actions)
            && var st' := Run(cfg, st, actions);
               && Agrees(st', after)
               && st'.stopRequested == stopAfter
               && st'.threads.At(t) == P.Submitting(sends, after.sendClosed)
               && st'.forward == st.forward && st'.backward == st.backward && st'.serverBuffers == st.serverBuffers
               && |st'.streams| == |after.streams| && Starvation.Match(picks, sels)
               && Leads(cfg.profiles, Starvation.ScheduleAt(st, DialOf(before, begun)), sels,
                        Starvation.ScheduleAt(st', DialOf(after, now)))
  {
    hide AfterPicks, Built, ValidPicks, P.Shape, P.CountersOf, L.CountersOf, Leads, ClockRan, FreeSpace, AllDrained,
        P.PumpApply;
    hide c.Configured, c.ShouldSend;
    AgreeingSchedules(st, before, begun);
    var pump := P.Pump(t, picks);
    if !(stopAfter && !st.stopRequested) {
      PumpMatches(cfg, st, t, picks, after);
      OneStep(cfg, st, pump);
      AgreeingSchedules(P.Apply(cfg, st, pump), after, now);
    } else if picks == [] {
      var stopped := P.Apply(cfg, st, P.RequestStop);
      StoppedShape(cfg, st);
      PumpMatches(cfg, stopped, t, picks, after);
      TwoSteps(cfg, st, P.RequestStop, pump);
      AgreeingSchedules(P.Apply(cfg, stopped, pump), after, now);
    } else {
      BuildingIsNotDrained(cfg.profiles, L.CountersOf(before.streams), picks);
      PumpMatches(cfg, st, t, picks, after);
      PumpedShape(cfg, st, t, picks);
      TwoSteps(cfg, st, pump, P.RequestStop);
      AgreeingSchedules(P.Apply(cfg, P.Apply(cfg, st, pump), P.RequestStop), after, now);
    }
  }

  // ---------------------------------------------------------------- the receive handlers

  /** The machine's stream `s` has moved as the handler's: same buffer and counters, the
      frames consumed, and the latencies among the handler's samples; the other streams stand. */
  ghost predicate Delivered(st: P.State, st': P.State, s: nat, x': L.StreamState, frames: seq<Bytes>,
                            samples: seq<nat>)
    requires s < |st.streams|
  {
    && |st'.streams| == |st.streams|
    && (forall o | 0 <= o < |st.streams| && o != s :: st'.streams[o] == st.streams[o])
    && st'.streams[s].counters == x'.counters && st'.streams[s].receiveBuffer == x'.receiveBuffer
    && st'.streams[s].consumed == st.streams[s].consumed + frames
    && st'.streams[s].latencies == st.streams[s].latencies + samples
  }

  lemma LoopMaySend(cfg: P.Config, st: P.State, s: nat, n: nat, times: seq<nat>)
    requires I.Inv(cfg, st) && !cfg.paced && cfg.sending && !st.stopRequested && |cfg.profiles| < TWO_TO_32
    requires P.Enabled(cfg, st, P.DeliverToClient(s, n, times))
    ensures var st' := P.Apply(cfg, st, P.DeliverToClient(s, n, times));
            && |st'.streams| == |cfg.profiles|
            && forall picks | ValidPicks(cfg.profiles, P.CountersOf(st'.streams), picks) ::
                 P.Enabled(cfg, st', P.Pump(P.ReceiveLoop, picks))
  {
    hide I.Inv, P.Enabled, P.Apply, ValidPicks;
    Resumption.ParsedWhole(cfg, st, s, n, times);
    var st' := P.Apply(cfg, st, P.DeliverToClient(s, n, times));
    forall picks | ValidPicks(cfg.profiles, P.CountersOf(st'.streams), picks)
      ensures P.Enabled(cfg, st', P.Pump(P.ReceiveLoop, picks))
    {
      Resumption.EchoLetsTheLoopSend(cfg, st, s, n, times, picks);
    }
  }

  /** A chunk handed to the client's OnData is a DeliverToClient action. It is never
      malformed, and brings no more echoes than were outstanding. */
  lemma OnDataIsADelivery(cfg: P.Config, st: P.State, s: nat, n: nat, x: L.StreamState,
                          frames: seq<Bytes>, rest: Bytes, error: Option<FrameError>, times: seq<nat>,
                          t: L.Totals, t': L.Totals)
    requires I.Inv(cfg, st) && st.started && st.threads.At(P.ReceiveLoop).Idle?
    requires s < |st.streams| && 0 < n <= |st.backward.channels[s]|
    requires x.counters == st.streams[s].counters && x.receiveBuffer == st.streams[s].receiveBuffer
    // what OnData promises
    requires Parsed(frames, rest, error) == P.EchoParse(cfg, st, s, n)
    requires |times| == |frames| && P.Readings(st.now, times)
    requires |t.metrics| == |st.streams| && L.Recorded(t, t', s, frames, times)
    ensures P.Enabled(cfg, st, P.DeliverToClient(s, n, times))
    ensures Delivered(st, P.Apply(cfg, st, P.DeliverToClient(s, n, times)), s, L.AfterReceive(x, rest, |frames|),
        frames, t'.metrics[s].samples[|t.metrics[s].samples|..])
    ensures t'.latencySamples[|t.latencySamples|..] == t'.metrics[s].samples[|t.metrics[s].samples|..]
    ensures error == None && |frames| <= Outstanding(x.counters)
    // and without a pacer the receive loop may then send whatever the windows admit
    ensures !cfg.paced && cfg.sending && !st.stopRequested && |cfg.profiles| < TWO_TO_32 ==>
              var st' := P.Apply(cfg, st, P.DeliverToClient(s, n, times));
              && |st'.streams| == |cfg.profiles|
              && forall picks | ValidPicks(cfg.profiles, P.CountersOf(st'.streams), picks) ::
                   P.Enabled(cfg, st', P.Pump(P.ReceiveLoop, picks))
  {
    hide ParseAll, I.ViewsOk, I.Discipline, I.Closing, P.Readings, Outstanding, Latencies, CountEchoed;
    Starvation.EchoesNeverExceedOutstanding(cfg, st, s, n);
    ParsedFramesHaveHeaders(st.streams[s].receiveBuffer + st.backward.channels[s][..n], cfg.profiles[s].messageSize);
    I.EchoStep(cfg, st, s, n, times);
    assert t'.metrics[s].samples[|t.metrics[s].samples|..] == Latencies(frames, times);
    assert t'.latencySamples[|t.latencySamples|..] == Latencies(frames, times);
    if !cfg.paced && cfg.sending && !st.stopRequested && |cfg.profiles| < TWO_TO_32 {
      LoopMaySend(cfg, st, s, n, times);
    }
  }

  /** A chunk handed to the server's OnData is a DeliverToServer action: it is never
      rejected, and the echoes to submit are the same. */
  lemma ServerOnDataIsADelivery(cfg: P.Config, st: P.State, s: nat, n: nat, buffer: Bytes, rest: Bytes,
      result: LS.Echoes)
    requires I.Inv(cfg, st) && P.Enabled(cfg, st, P.DeliverToServer(s, n)) && buffer == st.serverBuffers[s]
    // what OnData promises
    requires var p := ParseAll(buffer + st.forward.channels[s][..n], cfg.serverMessageSize);
             && rest == p.rest
             && result == match p.error case None => LS.Echoes(OnStream(p.frames, s)) case Some(e) => LS.Rejected(e)
    ensures var st' := P.Apply(cfg, st, P.DeliverToServer(s, n));
            && result == LS.Echoes(st'.serverSends)
            && st'.serverBuffers == st.serverBuffers[s := rest]
            && st'.backward == st.backward
  {
    hide ParseAll, I.ViewsOk, I.Discipline, I.Closing, LinkShape, P.SendsShape;
    I.ServeShape(cfg, st, s, n);
    I.ServeViews(cfg, st, s, n);
  }
}
