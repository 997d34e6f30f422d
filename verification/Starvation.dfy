/** Stream selection over whole runs of a connection. Each selection may be a PumpSends call
    of its own, with echoes arriving in between; the conservation invariant shows that
    nothing that happens between two calls takes a stream's turn away. */
module Starvation {
  import opened Wire
  import opened Reassembly
  import opened Transport
  import opened Window
  import opened Pacing
  import opened Rotation
  import P = Pipeline
  import I = PipelineInvariant

  lemma EchoesOfView(p: Profile, serverSize: nat, now: nat, v: P.View, chunk: Bytes, later: Bytes)
    requires ValidProfile(p) && P.ViewOk(p, serverSize, now, v) && v.returning == chunk + later
    ensures |ParseAll(v.x.receiveBuffer + chunk, p.messageSize).frames| <= Outstanding(v.x.counters)
  {
    hide TryPeekFrameSize, ParseAll, Concat, Numbered, P.PositionsOk, P.ClockOk, Outstanding;
    var x := v.x;
    BuiltFramesAreSelfDelimiting(p.messageSize, x.stamps, p.messageSize);
    P.EchoPositions(BuiltFrames(p.messageSize, x.stamps), p.messageSize, serverSize, v, chunk, later);
    TrackedWindow(p, x.counters, |x.stamps|, |x.consumed|, v.local);
  }

  /** No more echoes can arrive than are outstanding. */
  lemma EchoesNeverExceedOutstanding(cfg: P.Config, st: P.State, s: nat, n: nat)
    requires I.Inv(cfg, st) && s < |st.streams| && n <= |st.backward.channels[s]|
    ensures |P.EchoParse(cfg, st, s, n).frames| <= Outstanding(st.streams[s].counters)
  {
    hide ParseAll, P.ViewOk, InFlight, BytesFor, Outstanding;
    var v, chunk := P.ViewOf(cfg, st, s), st.backward.channels[s][..n];
    DeliverEffect(st.backward, s, n, s);
    var later := InFlight(Deliver(st.backward, s, n), s) + BytesFor(st.serverSends, s);
    assert v.returning == chunk + later;
    EchoesOfView(cfg.profiles[s], cfg.serverMessageSize, st.now, v, chunk, later);
  }

  /** Only PumpSends opens messages; every other action can only bring echoes home. */
  lemma StepLowersOutstanding(cfg: P.Config, st: P.State, a: P.Action, s: nat)
    requires I.Inv(cfg, st) && P.Enabled(cfg, st, a) && !a.Pump? && s < |st.streams|
    ensures s < |P.Apply(cfg, st, a).streams|
    ensures Outstanding(P.Apply(cfg, st, a).streams[s].counters) <= Outstanding(st.streams[s].counters)
  {
    hide I.ViewsOk, I.Discipline, I.Closing, ParseAll, InFlight, Outstanding, CountEchoed, LinkShape;
    if a.DeliverToClient? {
      EchoesNeverExceedOutstanding(cfg, st, a.stream, a.n);
      CountingLowersOutstanding(st.streams[a.stream].counters, |a.readings|);
    }
  }

  // ---------------------------------------------------------------- runs with their scheduler

  /** What the controller keeps for selection besides the counters, and the clock. */
  datatype Dial = Dial(times: seq<real>, pointer: nat, now: nat)

  predicate Fits(cfg: P.Config, st: P.State, d: Dial) {
    |d.times| == |st.streams| == |cfg.profiles| && d.pointer < |cfg.profiles|
  }

  function ScheduleAt(st: P.State, d: Dial): (s: Schedule)
    requires |d.times| == |st.streams|
    ensures |s.lanes| == |st.streams|
  {
    Schedule(seq(|st.streams|, i requires 0 <= i < |st.streams| => Lane(st.streams[i].counters, d.times[i])),
             d.pointer, d.now)
  }

  /** The selections are those that made the picks. */
  predicate Match(picks: seq<Pick>, sels: seq<Selection>) {
    |picks| == |sels| && forall k | 0 <= k < |picks| :: sels[k].pick == picks[k].ordinal
  }

  /** A run of the connection with the controller's scheduling state. Of a PumpSends call it
      says what the call promises, that the selections of its picks lead from one schedule to
      the next; of everything else, that it leaves the pacing clocks and the pointer alone. */
  ghost predicate ScheduledRun(cfg: P.Config, states: seq<P.State>, actions: seq<P.Action>,
                               dials: seq<Dial>, picked: seq<seq<Selection>>) {
    && P.IsRun(cfg, states, actions) && |dials| == |states| == |actions| + 1 && |picked| == |actions|
    && (forall i | 0 <= i < |states| :: Fits(cfg, states[i], dials[i]))
    && (forall i | 0 <= i < |actions| && actions[i].Pump? :: Match(actions[i].picks, picked[i]))
    && forall i | 0 <= i < |actions| ::
         if actions[i].Pump?
         then Leads(cfg.profiles, ScheduleAt(states[i], dials[i]), picked[i], ScheduleAt(states[i + 1], dials[i + 1]))
         else picked[i] == [] && dials[i + 1] == dials[i].(now := dials[i + 1].now) && dials[i].now <= dials[i + 1].now
  }

  function Picked(picked: seq<seq<Selection>>): seq<Selection> {
    if picked == [] then [] else Picked(picked[..|picked| - 1]) + picked[|picked| - 1]
  }

  /** Every stream picked in a run, in order. */
  function PicksOf(actions: seq<P.Action>): seq<Pick> {
    if actions == [] then []
    else
      var last := actions[|actions| - 1];
      PicksOf(actions[..|actions| - 1]) + if last.Pump? then last.picks else []
  }

  lemma OneMatch(cfg: P.Config, states: seq<P.State>, actions: seq<P.Action>,
                 dials: seq<Dial>, picked: seq<seq<Selection>>, i: nat)
    requires ScheduledRun(cfg, states, actions, dials, picked) && i < |actions|
    ensures Match(if actions[i].Pump? then actions[i].picks else [], picked[i])
  {
    hide P.IsRun, Leads;
    assert Fits(cfg, states[i], dials[i]) && Fits(cfg, states[i + 1], dials[i + 1]);
  }

  lemma {:induction false} PicksMatch(cfg: P.Config, states: seq<P.State>, actions: seq<P.Action>,
                                      dials: seq<Dial>, picked: seq<seq<Selection>>, i: nat, j: nat)
    requires ScheduledRun(cfg, states, actions, dials, picked) && i <= j <= |actions|
    ensures Match(PicksOf(actions[i..j]), Picked(picked[i..j]))
  {
    hide P.IsRun, Leads, Fits;
    if i == j {
      assert actions[i..j] == [] && picked[i..j] == [];
    } else {
      PicksMatch(cfg, states, actions, dials, picked, i, j - 1);
      var a, last := actions[i..j], actions[j - 1];
      assert a[..|a| - 1] == actions[i..j - 1] && a[|a| - 1] == last;
      assert picked[i..j][..j - i - 1] == picked[i..j - 1] && picked[i..j][j - i - 1] == picked[j - 1];
      OneMatch(cfg, states, actions, dials, picked, j - 1);
    }
  }

  /** How many of the picks are of one stream. */
  function PicksFor(picks: seq<Pick>, s: nat): nat {
    if picks == [] then 0
    else PicksFor(picks[..|picks| - 1], s) + if picks[|picks| - 1].ordinal == s then 1 else 0
  }

  /** Between two calls the schedule only gets readier. */
  lemma StepIsMeanwhile(cfg: P.Config, st: P.State, a: P.Action, d: Dial, d': Dial)
    requires I.Inv(cfg, st) && P.Enabled(cfg, st, a) && !a.Pump? && Fits(cfg, st, d)
    requires Fits(cfg, P.Apply(cfg, st, a), d') && d' == d.(now := d'.now) && d.now <= d'.now
    ensures Meanwhile(cfg.profiles, ScheduleAt(st, d), ScheduleAt(P.Apply(cfg, st, a), d'))
  {
    hide I.Inv, P.Enabled, P.Apply, Outstanding;
    forall s | 0 <= s < |cfg.profiles|
      ensures Outstanding(P.Apply(cfg, st, a).streams[s].counters) <= Outstanding(st.streams[s].counters)
    {
      StepLowersOutstanding(cfg, st, a, s);
    }
  }

  lemma StandingStill(profiles: seq<Profile>, s: Schedule)
    requires Shaped(profiles, s)
    ensures Leads(profiles, s, [], s)
  {
    TimePasses(profiles, s, s.now);
  }

  lemma NoSelections(profiles: seq<Profile>, s: Schedule, s': Schedule)
    requires Meanwhile(profiles, s, s')
    ensures Leads(profiles, s, [], s')
  {
  }

  /** All selections from one point of a run to another, across any number of PumpSends
      calls and everything in between, are one run of selections. */
  lemma {:induction false} RunLeads(cfg: P.Config, states: seq<P.State>, actions: seq<P.Action>,
                                    dials: seq<Dial>, picked: seq<seq<Selection>>, i: nat, j: nat)
    requires ScheduledRun(cfg, states, actions, dials, picked) && i <= j <= |actions|
    ensures Leads(cfg.profiles, ScheduleAt(states[i], dials[i]), Picked(picked[i..j]), ScheduleAt(states[j], dials[j]))
  {
    hide P.Enabled, P.Apply, I.Inv, Leads, Meanwhile;
    if i == j {
      assert picked[i..j] == [];
      StandingStill(cfg.profiles, ScheduleAt(states[i], dials[i]));
    } else {
      RunLeads(cfg, states, actions, dials, picked, i, j - 1);
      var last, next := ScheduleAt(states[j - 1], dials[j - 1]), ScheduleAt(states[j], dials[j]);
      if !actions[j - 1].Pump? {
        I.RunKeepsInv(cfg, states, actions, j - 1);
        StepIsMeanwhile(cfg, states[j - 1], actions[j - 1], dials[j - 1], dials[j]);
        NoSelections(cfg.profiles, last, next);
      }
      assert Leads(cfg.profiles, last, picked[j - 1], next);
      LeadsJoin(cfg.profiles, ScheduleAt(states[i], dials[i]), Picked(picked[i..j - 1]), last, picked[j - 1], next);
      assert picked[i..j][..j - i - 1] == picked[i..j - 1];
    }
  }

  /** No starvation over runs: a stream that is eligible at some point of a run is served
      within its distance from the pointer, and so within stream_count selections, however
      the selections spread over PumpSends calls and whatever arrives in between. */
  lemma NoStarvationInRuns(cfg: P.Config, states: seq<P.State>, actions: seq<P.Action>,
                           dials: seq<Dial>, picked: seq<seq<Selection>>, i: nat, j: nat, e: nat) returns (k: nat)
    requires ScheduledRun(cfg, states, actions, dials, picked) && i <= j <= |actions|
    requires e < |cfg.profiles|
    requires Eligible(cfg.profiles[e], ScheduleAt(states[i], dials[i]).lanes[e], dials[i].now)
    requires |PicksOf(actions[i..j])| > Distance(dials[i].pointer, e, |cfg.profiles|)
    ensures k <= Distance(dials[i].pointer, e, |cfg.profiles|) < |cfg.profiles|
    ensures PicksOf(actions[i..j])[k].ordinal == e
  {
    hide P.IsRun, Eligible, Selects, Meanwhile;
    PicksMatch(cfg, states, actions, dials, picked, i, j);
    RunLeads(cfg, states, actions, dials, picked, i, j);
    var sels := Picked(picked[i..j]);
    MeanwhileKeepsEligible(cfg.profiles, ScheduleAt(states[i], dials[i]), sels[0].pre, e);
    k := NoStarvation(cfg.profiles, sels, e);
  }

  lemma {:induction false} SlotPerPick(profiles: seq<Profile>, picks: seq<Pick>, sels: seq<Selection>, s: nat)
    requires s < |profiles| && profiles[s].sendPps > 0 && Match(picks, sels)
    requires forall k | 0 <= k < |sels| :: s < |sels[k].pre.lanes|
    ensures |StreamSlots(profiles, sels, s)| == PicksFor(picks, s)
  {
    hide SlotOf;
    if sels == [] {
    } else {
      SlotPerPick(profiles, picks[..|picks| - 1], sels[..|sels| - 1], s);
    }
  }

  /** The pacing of one stream over runs: k of its picks have slots that span at least k - 6
      intervals. */
  lemma StreamBurstBoundInRuns(cfg: P.Config, states: seq<P.State>, actions: seq<P.Action>,
                               dials: seq<Dial>, picked: seq<seq<Selection>>, i: nat, j: nat, s: nat, a: nat, b: nat)
    requires ScheduledRun(cfg, states, actions, dials, picked) && i <= j <= |actions|
    requires s < |cfg.profiles| && cfg.profiles[s].sendPps > 0 && dials[i].now > 0 && dials[i].times[s] >= 0.0
    requires a <= b < PicksFor(PicksOf(actions[i..j]), s)
    ensures forall k | 0 <= k < |Picked(picked[i..j])| :: s < |Picked(picked[i..j])[k].pre.lanes|
    ensures var slots := StreamSlots(cfg.profiles, Picked(picked[i..j]), s);
            && |slots| == PicksFor(PicksOf(actions[i..j]), s)
            && Intervals(b - a + 1 - 6, StreamInterval(cfg.profiles[s])) <= slots[b].time - slots[a].time
  {
    hide P.IsRun, Selects, Intervals;
    RunLeads(cfg, states, actions, dials, picked, i, j);
    PicksMatch(cfg, states, actions, dials, picked, i, j);
    var sels := Picked(picked[i..j]);
    assert sels != [];
    StreamSlotsFormChain(cfg.profiles, sels, s);
    SlotPerPick(cfg.profiles, PicksOf(actions[i..j]), sels, s);
    IntervalIsPositive(cfg.profiles[s]);
    BurstBound(StreamSlots(cfg.profiles, sels, s), StreamInterval(cfg.profiles[s]), a, b);
  }
}
