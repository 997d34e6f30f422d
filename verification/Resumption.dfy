/** What an echo, a pass of the pacer and the start of a connection allow its threads to
    send: nothing but the windows, and for the pacer one message, limits the next PumpSends. */
module Resumption {
  import opened Wire
  import opened Reassembly
  import opened Window
  import opened Pipeline
  import opened PipelineInvariant
  import Starvation
  import T = PipelineTheorems

  /** As many messages as the windows admit fit any limit an unlimited call passes. */
  lemma PicksFitTheLimit(profiles: seq<Profile>, cs: seq<Counters>, picks: seq<Pick>)
    requires |profiles| == |cs| < TWO_TO_32 && ValidProfiles(profiles) && ValidPicks(profiles, cs, picks)
    ensures |picks| <= SIZE_MAX
  {
    hide FreeSpace, ValidPicks;
    PicksTakeSpace(profiles, cs, picks);
    FreeFitsTheLimit(profiles, cs);
  }

  lemma ParsedWhole(cfg: Config, st: State, s: nat, n: nat, readings: seq<nat>)
    requires Inv(cfg, st) && Enabled(cfg, st, DeliverToClient(s, n, readings))
    ensures var st' := Apply(cfg, st, DeliverToClient(s, n, readings));
            && Inv(cfg, st') && !st'.failed && |st'.streams| == |st.streams| == |cfg.profiles|
            && st'.stopRequested == st.stopRequested && st'.sendClosed == st.sendClosed
            && (!cfg.paced ==> st'.threads.At(ReceiveLoop) == OwesPump(SIZE_MAX))
            && s < |st.streams|
            && st'.streams[s].counters == CountEchoed(st.streams[s].counters, |readings|)
            && |readings| == |EchoParse(cfg, st, s, n).frames| && n <= |st.backward.channels[s]|
  {
    hide ViewsOk, Discipline, Closing, ParseAll, Readings, Latencies, CountEchoed;
    StepKeepsInv(cfg, st, DeliverToClient(s, n, readings));
    EchoStep(cfg, st, s, n, readings);
  }

  /** Nothing is closed before the stop. */
  lemma OpenBeforeTheStop(cfg: Config, st: State)
    requires Inv(cfg, st) && !st.stopRequested
    ensures !st.sendClosed
  {
    hide ViewsOk, Discipline, Drained;
  }

  /** After a chunk from the server the receive loop of an unpaced connection may send
      whatever the windows admit: any picks within them are one PumpSends call. */
  lemma EchoLetsTheLoopSend(cfg: Config, st: State, s: nat, n: nat, readings: seq<nat>, picks: seq<Pick>)
    requires Inv(cfg, st) && !cfg.paced && cfg.sending && !st.stopRequested && |cfg.profiles| < TWO_TO_32
    requires Enabled(cfg, st, DeliverToClient(s, n, readings))
    requires var st' := Apply(cfg, st, DeliverToClient(s, n, readings));
             |st'.streams| == |cfg.profiles| && ValidPicks(cfg.profiles, CountersOf(st'.streams), picks)
    ensures Enabled(cfg, Apply(cfg, st, DeliverToClient(s, n, readings)), Pump(ReceiveLoop, picks))
  {
    hide ViewsOk, Discipline, Closing, ValidPicks, Shape, EchoParse, Readings, EchoApply;
    var st' := Apply(cfg, st, DeliverToClient(s, n, readings));
    ParsedWhole(cfg, st, s, n, readings);
    OpenBeforeTheStop(cfg, st);
    PicksFitTheLimit(cfg.profiles, CountersOf(st'.streams), picks);
  }

  lemma ConfigOfEnabled(cfg: Config, st: State, a: Action)
    requires Enabled(cfg, st, a)
    ensures ValidConfig(cfg) && Shape(cfg, st)
  {
  }

  lemma OnePick(profiles: seq<Profile>, cs: seq<Counters>, s: nat, builtAt: nat)
    requires |profiles| == |cs| && s < |profiles| && WindowOpen(profiles[s], cs[s])
    ensures ValidPicks(profiles, cs, [Pick(s, builtAt)])
  {
    assert [Pick(s, builtAt)][..0] == [];
    assert ValidPicks(profiles, cs, []);
  }

  /** Every echo makes room: once a frame has been consumed on a stream, its next message may
      go out. */
  lemma EchoMakesRoom(cfg: Config, st: State, s: nat, n: nat, readings: seq<nat>, builtAt: nat)
    requires Reachable(cfg, st) && !cfg.paced && cfg.sending && !st.stopRequested && |cfg.profiles| < TWO_TO_32
    requires Enabled(cfg, st, DeliverToClient(s, n, readings)) && readings != []
    ensures Enabled(cfg, Apply(cfg, st, DeliverToClient(s, n, readings)), Pump(ReceiveLoop, [Pick(s, builtAt)]))
  {
    hide Reachable, ViewsOk, Discipline, Closing, Shape, EchoParse, Readings, EchoApply, Enabled, Apply, Outstanding,
        CountEchoed;
    ReachableInv(cfg, st);
    var st' := Apply(cfg, st, DeliverToClient(s, n, readings));
    ParsedWhole(cfg, st, s, n, readings);
    ConfigOfEnabled(cfg, st, DeliverToClient(s, n, readings));
    T.WindowIsRespected(cfg, st, s);
    Starvation.EchoesNeverExceedOutstanding(cfg, st, s, n);
    CountingLowersOutstanding(st.streams[s].counters, |readings|);
    assert CountersOf(st'.streams)[s] == st'.streams[s].counters;
    OnePick(cfg.profiles, CountersOf(st'.streams), s, builtAt);
    EchoLetsTheLoopSend(cfg, st, s, n, readings, [Pick(s, builtAt)]);
  }

  /** Before the stop each pass of the pacer may send one message on any stream with room. */
  lemma PassMaySendOne(cfg: Config, st: State, s: nat, builtAt: nat)
    requires Reachable(cfg, st) && cfg.sending && !st.stopRequested && Enabled(cfg, st, PacerTick)
    requires s < |st.streams| == |cfg.profiles| && WindowOpen(cfg.profiles[s], st.streams[s].counters)
    ensures Enabled(cfg, Apply(cfg, st, PacerTick), Pump(PacerThread, [Pick(s, builtAt)]))
  {
    hide Reachable, ViewsOk, Discipline, Closing, WindowOpen;
    ReachableInv(cfg, st);
    StepKeepsInv(cfg, st, PacerTick);
    OpenBeforeTheStop(cfg, st);
    assert CountersOf(st.streams)[s] == st.streams[s].counters;
    OnePick(cfg.profiles, CountersOf(st.streams), s, builtAt);
  }

  /** And no pass sends more than one. */
  lemma PassSendsAtMostOne(cfg: Config, st: State, picks: seq<Pick>)
    requires Enabled(cfg, st, PacerTick) && Enabled(cfg, Apply(cfg, st, PacerTick), Pump(PacerThread, picks))
    ensures |picks| <= 1
  {
    hide Shape, ValidPicks;
  }

  /** A new connection without a pacer may fill its windows at once. */
  lemma StartLetsMainSend(cfg: Config, now: nat, picks: seq<Pick>)
    requires ValidConfig(cfg) && now < TWO_TO_64 && !cfg.paced && cfg.sending && |cfg.profiles| < TWO_TO_32
    requires ValidPicks(cfg.profiles, CountersOf(InitialState(cfg, now).streams), picks)
    ensures Enabled(cfg, InitialState(cfg, now), Pump(MainThread, picks))
  {
    hide ViewsOk, Discipline, Closing, ValidPicks;
    InitialInv(cfg, now);
    PicksFitTheLimit(cfg.profiles, CountersOf(InitialState(cfg, now).streams), picks);
  }
}
