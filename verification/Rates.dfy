/** The configured rates, read off the options and the profiles: how many slots each pacing
    clock can give in a stretch of time, and how far its slots take it. */
module Rates {
  import opened Window
  import opened Pacing
  import opened Rotation
  import opened Configuration
  import A = AggregateRate
  import L = LoadClient
  import Q = QuicClient
  import T = QuicTurns
  import P = Pipeline
  import Starvation

  /** The slots taken within `width` nanoseconds from `from` on. */
  function SlotsIn(slots: seq<Slot>, from: real, width: real): nat {
    if slots == [] then 0
    else
      var last := |slots| - 1;
      SlotsIn(slots[..last], from, width) + if from <= slots[last].time <= from + width then 1 else 0
  }

  lemma {:induction false} SlotsAtOnce(slots: seq<Slot>, from: real, width: real)
    ensures SlotsIn(slots, from, width) == A.MessagesIn(A.AtOnce(slots), from, width)
  {
    if slots == [] {
    } else {
      var last := |slots| - 1;
      SlotsAtOnce(slots[..last], from, width);
      assert A.AtOnce(slots)[..last] == A.AtOnce(slots[..last]);
    }
  }

  lemma WidthTimesRate(width: real, rate: nat)
    requires rate > 0
    ensures 1_000_000_000.0 / (rate as real) > 0.0
    ensures width / (1_000_000_000.0 / (rate as real)) == width * (rate as real) / 1_000_000_000.0
  {
    var p, gap := rate as real, 1_000_000_000.0 / (rate as real);
    assert gap * p == 1_000_000_000.0;
    var x := width / gap;
    assert x * gap == width;
    assert x * (gap * p) == width * p;
  }

  /** A clock that ticks `rate` times a second gives at most width * rate / 1e9 + 6 slots. */
  lemma RateOfChain(slots: seq<Slot>, rate: nat, from: real, width: real)
    requires rate > 0 && width >= 0.0 && SlotChain(slots, 1_000_000_000.0 / (rate as real))
    ensures SlotsIn(slots, from, width) as real <= width * (rate as real) / 1_000_000_000.0 + 6.0
  {
    hide SlotChain, A.MessagesIn;
    WidthTimesRate(width, rate);
    SlotsAtOnce(slots, from, width);
    A.SlotsInWindow(slots, 1_000_000_000.0 / (rate as real), from, width);
  }

  /** A slot taken no more than five gaps late. */
  predicate InTime(slot: Slot, gap: real) {
    slot.time <= slot.before + 5.0 * gap
  }

  lemma InTimeIsNotForgiven(slots: seq<Slot>, gap: real, k: nat)
    requires gap > 0.0 && SlotChain(slots, gap) && k < |slots| && InTime(slots[k], gap)
    ensures !ForgivesBacklog(slots[k], gap)
  {
    ForgivenessIsExact(slots, gap, k);
  }

  /** Slots taken in time take the clock one gap further each. */
  lemma AdvanceOfChain(slots: seq<Slot>, gap: real, i: nat, j: nat)
    requires gap > 0.0 && SlotChain(slots, gap) && i <= j < |slots|
    requires forall k | i <= k <= j :: InTime(slots[k], gap)
    ensures slots[j].after == slots[i].before + (j - i + 1) as real * gap
  {
    hide SlotChain, ForgivesBacklog, InTime;
    forall k | i <= k <= j
      ensures !ForgivesBacklog(slots[k], gap)
    {
      InTimeIsNotForgiven(slots, gap, k);
    }
    NoDrift(slots, gap, i, j);
  }

  // ---------------------------------------------------------------- streams

  /** How often stream `s` is selected within `width` nanoseconds from `from` on. */
  function PickedIn(sels: seq<Selection>, s: nat, from: real, width: real): nat {
    if sels == [] then 0
    else
      var sel := sels[|sels| - 1];
      PickedIn(sels[..|sels| - 1], s, from, width)
      + if sel.pick == s && from <= sel.at as real <= from + width then 1 else 0
  }

  lemma {:induction false} PicksAreSlots(profiles: seq<Profile>, sels: seq<Selection>, s: nat, from: real, width: real)
    requires s < |profiles| && profiles[s].sendPps > 0
    requires forall i | 0 <= i < |sels| :: s < |sels[i].pre.lanes|
    ensures PickedIn(sels, s, from, width) == SlotsIn(StreamSlots(profiles, sels, s), from, width)
  {
    hide ServedTime;
    if sels == [] {
    } else {
      var earlier, sel := sels[..|sels| - 1], sels[|sels| - 1];
      PicksAreSlots(profiles, earlier, s, from, width);
      var slots := StreamSlots(profiles, earlier, s);
      if sel.pick == s {
        assert (slots + [SlotOf(profiles[s], sel, s)])[..|slots|] == slots;
      } else {
        assert StreamSlots(profiles, sels, s) == slots;
      }
    }
  }

  lemma StreamGap(p: Profile)
    requires p.sendPps > 0
    ensures StreamInterval(p) == 1_000_000_000.0 / (p.sendPps as real) > 0.0
  {
  }

  lemma NoStreamSlots(profiles: seq<Profile>, s: nat)
    requires s < |profiles| && profiles[s].sendPps > 0
    ensures StreamSlots(profiles, [], s) == [] && SlotChain([], StreamInterval(profiles[s]))
  {
  }

  lemma StreamSlotsOfRun(cfg: P.Config, states: seq<P.State>, actions: seq<P.Action>,
                         dials: seq<Starvation.Dial>, picked: seq<seq<Selection>>, i: nat, j: nat, s: nat)
    requires Starvation.ScheduledRun(cfg, states, actions, dials, picked) && i <= j <= |actions|
    requires s < |cfg.profiles| && cfg.profiles[s].sendPps > 0 && dials[i].now > 0 && dials[i].times[s] >= 0.0
    ensures var sels := Starvation.Picked(picked[i..j]);
            && (forall k | 0 <= k < |sels| :: s < |sels[k].pre.lanes|)
            && var slots := StreamSlots(cfg.profiles, sels, s);
               && SlotChain(slots, 1_000_000_000.0 / (cfg.profiles[s].sendPps as real))
               && (slots != [] ==> slots[|slots| - 1].after == dials[j].times[s])
  {
    hide P.IsRun, Selects, StreamInterval, SlotChain, StreamSlots;
    StreamGap(cfg.profiles[s]);
    Starvation.RunLeads(cfg, states, actions, dials, picked, i, j);
    var sels := Starvation.Picked(picked[i..j]);
    if sels == [] {
      NoStreamSlots(cfg.profiles, s);
    } else {
      StreamSlotsFormChain(cfg.profiles, sels, s);
    }
  }

  /** A stream with a rate is picked at most width * rate / 1e9 + 6 times in any stretch of
      any run. */
  lemma StreamRateBound(cfg: P.Config, states: seq<P.State>, actions: seq<P.Action>,
                        dials: seq<Starvation.Dial>, picked: seq<seq<Selection>>, i: nat, j: nat, s: nat,
                        from: real, width: real)
    requires Starvation.ScheduledRun(cfg, states, actions, dials, picked) && i <= j <= |actions|
    requires s < |cfg.profiles| && cfg.profiles[s].sendPps > 0 && dials[i].now > 0 && dials[i].times[s] >= 0.0
    requires width >= 0.0
    ensures PickedIn(Starvation.Picked(picked[i..j]), s, from, width) as real
         <= width * (cfg.profiles[s].sendPps as real) / 1_000_000_000.0 + 6.0
  {
    hide P.IsRun, Leads, Starvation.Fits, Starvation.Match, SlotChain, StreamSlots, PickedIn, SlotsIn;
    StreamSlotsOfRun(cfg, states, actions, dials, picked, i, j, s);
    PicksAreSlots(cfg.profiles, Starvation.Picked(picked[i..j]), s, from, width);
    RateOfChain(StreamSlots(cfg.profiles, Starvation.Picked(picked[i..j]), s), cfg.profiles[s].sendPps, from, width);
  }

  /** And if its slots are taken in time, n of them take its clock n * 1e9 / rate further. */
  lemma StreamClockAdvance(cfg: P.Config, states: seq<P.State>, actions: seq<P.Action>,
                           dials: seq<Starvation.Dial>, picked: seq<seq<Selection>>, i: nat, j: nat, s: nat, a: nat)
    requires Starvation.ScheduledRun(cfg, states, actions, dials, picked) && i <= j <= |actions|
    requires s < |cfg.profiles| && cfg.profiles[s].sendPps > 0 && dials[i].now > 0 && dials[i].times[s] >= 0.0
    requires var sels := Starvation.Picked(picked[i..j]);
             && (forall k | 0 <= k < |sels| :: s < |sels[k].pre.lanes|)
             && var slots := StreamSlots(cfg.profiles, sels, s);
                && a < |slots|
                && forall k | a <= k < |slots| :: InTime(slots[k], 1_000_000_000.0 / (cfg.profiles[s].sendPps as real))
    ensures var slots := StreamSlots(cfg.profiles, Starvation.Picked(picked[i..j]), s);
            dials[j].times[s] == slots[a].before
              + (|slots| - a) as real * (1_000_000_000.0 / (cfg.profiles[s].sendPps as real))
  {
    hide P.IsRun, Leads, Starvation.Fits, Starvation.Match, SlotChain, StreamSlots, InTime;
    StreamSlotsOfRun(cfg, states, actions, dials, picked, i, j, s);
    WidthTimesRate(0.0, cfg.profiles[s].sendPps);
    var slots := StreamSlots(cfg.profiles, Starvation.Picked(picked[i..j]), s);
    AdvanceOfChain(slots, 1_000_000_000.0 / (cfg.profiles[s].sendPps as real), a, |slots| - 1);
  }

  // ---------------------------------------------------------------- the SCTP client

  /** The clock of a sending connection in per-client mode. */
  lemma ConnectionSlots(c: L.LoadClientController, id: nat)
    requires c.Valid() && c.options.sendPpsPerClient > 0 && id < |c.states| && Sends(c.options, id)
    ensures |c.taken| == |c.states| && SlotChain(c.taken[id], 1_000_000_000.0 / (c.options.sendPpsPerClient as real))
    ensures c.taken[id] != [] ==> c.taken[id][|c.taken[id]| - 1].after == c.states[id].nextSendTime
  {
    hide SlotChain, ActiveCount, Sends;
    SenderIsActive(c.options, id);
    assert ClockRan(c.starts[id], c.interval, c.taken[id], c.states[id].nextSendTime, c.clock as real);
  }

  /** In per-client mode a connection takes at most width * rate / 1e9 + 6 slots in any
      stretch of time, whatever it has gone through. */
  lemma ConnectionRateBound(c: L.LoadClientController, id: nat, from: real, width: real)
    requires c.Valid() && c.options.sendPpsPerClient > 0 && id < |c.states| && Sends(c.options, id) && width >= 0.0
    ensures |c.taken| == |c.states|
    ensures SlotsIn(c.taken[id], from, width) as real
         <= width * (c.options.sendPpsPerClient as real) / 1_000_000_000.0 + 6.0
  {
    hide c.Valid, SlotChain, Sends, SlotsIn;
    ConnectionSlots(c, id);
    RateOfChain(c.taken[id], c.options.sendPpsPerClient, from, width);
  }

  /** And if they are taken in time, n of them take its clock n * 1e9 / rate further. */
  lemma ConnectionClockAdvance(c: L.LoadClientController, id: nat, a: nat)
    requires c.Valid() && c.options.sendPpsPerClient > 0 && id < |c.states| == |c.taken| && Sends(c.options, id)
    requires a < |c.taken[id]|
    requires forall k | a <= k < |c.taken[id]| ::
               InTime(c.taken[id][k], 1_000_000_000.0 / (c.options.sendPpsPerClient as real))
    ensures c.states[id].nextSendTime == c.taken[id][a].before
              + (|c.taken[id]| - a) as real * (1_000_000_000.0 / (c.options.sendPpsPerClient as real))
  {
    hide c.Valid, SlotChain, Sends, InTime;
    ConnectionSlots(c, id);
    WidthTimesRate(0.0, c.options.sendPpsPerClient);
    AdvanceOfChain(c.taken[id], 1_000_000_000.0 / (c.options.sendPpsPerClient as real), a, |c.taken[id]| - 1);
  }

  /** Of the pacer's looks at the global clock, those that led to a message. */
  function UsedIn(looks: seq<Look>, from: real, width: real): nat {
    if looks == [] then 0
    else
      var last := looks[|looks| - 1];
      UsedIn(looks[..|looks| - 1], from, width) + if last.used && from <= last.time <= from + width then 1 else 0
  }

  lemma {:induction false} UsedLooksAreSlots(start: real, interval: real, looks: seq<Look>, from: real, width: real)
    requires OnlyDueUsed(start, interval, looks)
    ensures UsedIn(looks, from, width) == SlotsIn(SlotsOf(start, interval, looks), from, width)
  {
    hide Due, AfterLook, StartedAt, AfterLooks;
    if looks == [] {
    } else {
      var earlier, last := looks[..|looks| - 1], looks[|looks| - 1];
      forall i | 0 <= i < |earlier| && earlier[i].used
        ensures Due(AfterLooks(start, interval, earlier[..i]), earlier[i].time)
      {
        assert earlier[..i] == looks[..i] && earlier[i] == looks[i];
      }
      UsedLooksAreSlots(start, interval, earlier, from, width);
      var slots := SlotsOf(start, interval, earlier);
      var next := AfterLooks(start, interval, earlier);
      if Took(next, last) {
        var slot := Slot(last.time, StartedAt(next, last.time), AfterLook(next, interval, last));
        assert SlotsOf(start, interval, looks) == slots + [slot];
        assert (slots + [slot])[..|slots|] == slots;
      } else {
        assert SlotsOf(start, interval, looks) == slots;
      }
    }
  }

  lemma GlobalSlotsFormChain(c: L.LoadClientController)
    requires c.Valid() && c.options.sendPps > 0
    ensures SlotChain(c.GlobalSlots(), 1_000_000_000.0 / (c.options.sendPps as real))
    ensures OnlyDueUsed(0.0, c.interval, c.looks)
    ensures c.GlobalSlots() != [] ==> c.GlobalSlots()[|c.GlobalSlots()| - 1].after == c.globalNextSendTime
  {
    hide SlotChain, ActiveCount, OnlyDueUsed, AfterLooks, SlotsOf;
    WidthTimesRate(0.0, c.options.sendPps);
    HistoryIsChain(0.0, c.interval, c.looks);
  }

  /** In total-rate mode the pacer sends at most width * rate / 1e9 + 6 messages in any
      stretch of time, over all connections. */
  lemma GlobalRateBound(c: L.LoadClientController, from: real, width: real)
    requires c.Valid() && c.options.sendPps > 0 && width >= 0.0
    ensures UsedIn(c.looks, from, width) as real <= width * (c.options.sendPps as real) / 1_000_000_000.0 + 6.0
  {
    hide c.Valid, SlotChain, UsedIn, SlotsIn, OnlyDueUsed;
    GlobalSlotsFormChain(c);
    UsedLooksAreSlots(0.0, c.interval, c.looks, from, width);
    RateOfChain(c.GlobalSlots(), c.options.sendPps, from, width);
  }

  /** And if its slots are taken in time, n of them take the global clock n * 1e9 / rate
      further. */
  lemma GlobalClockAdvance(c: L.LoadClientController, a: nat)
    requires c.Valid() && c.options.sendPps > 0 && a < |c.GlobalSlots()|
    requires forall k | a <= k < |c.GlobalSlots()| ::
               InTime(c.GlobalSlots()[k], 1_000_000_000.0 / (c.options.sendPps as real))
    ensures c.globalNextSendTime == c.GlobalSlots()[a].before
              + (|c.GlobalSlots()| - a) as real * (1_000_000_000.0 / (c.options.sendPps as real))
  {
    hide c.Valid, SlotChain, OnlyDueUsed, InTime;
    GlobalSlotsFormChain(c);
    WidthTimesRate(0.0, c.options.sendPps);
    AdvanceOfChain(c.GlobalSlots(), 1_000_000_000.0 / (c.options.sendPps as real), a, |c.GlobalSlots()| - 1);
  }

  // ---------------------------------------------------------------- the QUIC client

  lemma SharedGap(active: nat, rate: nat)
    requires active > 0 && rate > 0
    ensures (1_000_000_000.0 * (active as real)) / (rate as real)
         == (active as real) * (1_000_000_000.0 / (rate as real)) > 0.0
  {
    var a, p, g := active as real, rate as real, 1_000_000_000.0;
    assert (a * (g / p)) * p == a * g;
    assert g / p > 0.0;
  }

  lemma QuicGap(o: Options, gap: real)
    requires o.serverCount > 0 && ActiveCount(o) > 0 && (o.sendPpsPerClient > 0 || o.sendPps > 0)
    requires gap == if o.sendPpsPerClient > 0 then 1_000_000_000.0 / (o.sendPpsPerClient as real)
                    else (ActiveCount(o) as real) * (1_000_000_000.0 / (o.sendPps as real))
    ensures QuicInterval(Mode(o), o, ActiveCount(o)) == gap > 0.0
  {
    hide ActiveCount;
    if o.sendPpsPerClient == 0 {
      SharedGap(ActiveCount(o), o.sendPps);
    }
  }

  /** The clock of a sending QUIC connection: in total-rate mode the active connections share
      the rate. */
  lemma QuicSlots(c: Q.QuicConnection, gap: real)
    requires c.Valid() && c.shouldSend && c.options.serverCount > 0
    requires c.options.sendPpsPerClient > 0 || c.options.sendPps > 0
    requires gap == if c.options.sendPpsPerClient > 0 then 1_000_000_000.0 / (c.options.sendPpsPerClient as real)
                    else (ActiveCount(c.options) as real) * (1_000_000_000.0 / (c.options.sendPps as real))
    ensures gap > 0.0 && SlotChain(c.slots, gap) && HandedOver(c.slots, c.messages, c.clock as real)
    ensures c.slots != [] ==> c.slots[|c.slots| - 1].after == c.nextSendTime
  {
    hide SlotChain, ActiveCount, Sends, HandedOver, QuicInterval;
    SenderIsActive(c.options, c.index);
    QuicGap(c.options, gap);
    assert c.interval == gap;
  }

  /** In per-client mode a QUIC connection hands over at most width * rate / 1e9 + 7
      messages in any stretch of time. */
  lemma QuicClientRateBound(c: Q.QuicConnection, from: real, width: real)
    requires c.Valid() && c.shouldSend && c.options.sendPpsPerClient > 0 && width >= 0.0
    ensures A.MessagesIn(c.messages, from, width) as real
         <= width * (c.options.sendPpsPerClient as real) / 1_000_000_000.0 + 7.0
  {
    hide SlotChain, HandedOver, A.MessagesIn, ActiveCount, Sends, ClockRan;
    var gap := 1_000_000_000.0 / (c.options.sendPpsPerClient as real);
    QuicSlots(c, gap);
    WidthTimesRate(width, c.options.sendPpsPerClient);
    A.MessagesInWindow(c.slots, c.messages, c.clock as real, gap, from, width);
  }

  /** Slots of a QUIC connection taken in time take its clock 1e9 / rate further each, or
      active * 1e9 / rate if the active connections share the rate. */
  lemma QuicClockAdvance(c: Q.QuicConnection, a: nat, gap: real)
    requires c.Valid() && c.shouldSend && c.options.serverCount > 0
    requires c.options.sendPpsPerClient > 0 || c.options.sendPps > 0
    requires gap == if c.options.sendPpsPerClient > 0 then 1_000_000_000.0 / (c.options.sendPpsPerClient as real)
                    else (ActiveCount(c.options) as real) * (1_000_000_000.0 / (c.options.sendPps as real))
    requires a < |c.slots| && forall k | a <= k < |c.slots| :: InTime(c.slots[k], gap)
    ensures c.nextSendTime == c.slots[a].before + (|c.slots| - a) as real * gap
  {
    hide c.Valid, SlotChain, HandedOver, InTime, ActiveCount;
    QuicSlots(c, gap);
    AdvanceOfChain(c.slots, gap, a, |c.slots| - 1);
  }

  /** How often stream `s` is served within `width` nanoseconds from `from` on. */
  function ServedIn(turns: seq<T.Turn>, s: nat, from: real, width: real): nat {
    if turns == [] then 0
    else
      var t := turns[|turns| - 1];
      ServedIn(turns[..|turns| - 1], s, from, width)
      + if t.served == s && from <= t.at as real <= from + width then 1 else 0
  }

  lemma {:induction false} ServedAreSlots(profiles: seq<Profile>, turns: seq<T.Turn>, s: nat, from: real, width: real)
    requires s < |profiles| && profiles[s].sendPps > 0
    requires forall i | 0 <= i < |turns| :: s < |turns[i].pre.streams|
    ensures ServedIn(turns, s, from, width) == SlotsIn(T.TurnSlots(profiles, turns, s), from, width)
  {
    hide ServedTime, T.NextTime;
    if turns == [] {
    } else {
      var earlier, t := turns[..|turns| - 1], turns[|turns| - 1];
      ServedAreSlots(profiles, earlier, s, from, width);
      var slots := T.TurnSlots(profiles, earlier, s);
      if t.served == s {
        assert (slots + [T.SlotOfTurn(profiles[s], t, s)])[..|slots|] == slots;
      } else {
        assert T.TurnSlots(profiles, turns, s) == slots;
      }
    }
  }

  lemma TurnSlotsOfRun(profiles: seq<Profile>, turns: seq<T.Turn>, s: nat)
    requires T.TurnRun(profiles, turns) && turns != [] && s < |profiles|
    requires profiles[s].sendPps > 0 && profiles[s].name != ""
    requires turns[0].pre.now > 0 && s < |turns[0].pre.streams| && turns[0].pre.streams[s].nextSendTime >= 0.0
    ensures forall i | 0 <= i < |turns| :: s < |turns[i].pre.streams|
    ensures s < |turns[|turns| - 1].post.streams|
    ensures var slots := T.TurnSlots(profiles, turns, s);
            && SlotChain(slots, 1_000_000_000.0 / (profiles[s].sendPps as real))
            && (slots != [] ==> slots[|slots| - 1].after == turns[|turns| - 1].post.streams[s].nextSendTime)
  {
    hide T.TurnRun, StreamInterval, SlotChain, T.TurnSlots;
    StreamGap(profiles[s]);
    T.TurnSlotsFormChain(profiles, turns, s);
  }

  /** A stream of a QUIC connection with a rate is served at most width * rate / 1e9 + 6 times
      in any stretch of any run of turns. */
  lemma QuicStreamRateBound(profiles: seq<Profile>, turns: seq<T.Turn>, s: nat, from: real, width: real)
    requires T.TurnRun(profiles, turns) && turns != [] && s < |profiles| && width >= 0.0
    requires profiles[s].sendPps > 0 && profiles[s].name != ""
    requires turns[0].pre.now > 0 && s < |turns[0].pre.streams| && turns[0].pre.streams[s].nextSendTime >= 0.0
    ensures ServedIn(turns, s, from, width) as real
         <= width * (profiles[s].sendPps as real) / 1_000_000_000.0 + 6.0
  {
    hide T.TurnRun, SlotChain, T.TurnSlots, ServedIn, SlotsIn;
    TurnSlotsOfRun(profiles, turns, s);
    ServedAreSlots(profiles, turns, s, from, width);
    RateOfChain(T.TurnSlots(profiles, turns, s), profiles[s].sendPps, from, width);
  }

  /** And if its slots are taken in time, n of them take its clock n * 1e9 / rate further. */
  lemma QuicStreamClockAdvance(profiles: seq<Profile>, turns: seq<T.Turn>, s: nat, a: nat)
    requires T.TurnRun(profiles, turns) && turns != [] && s < |profiles|
    requires profiles[s].sendPps > 0 && profiles[s].name != ""
    requires turns[0].pre.now > 0 && s < |turns[0].pre.streams| && turns[0].pre.streams[s].nextSendTime >= 0.0
    requires (forall i | 0 <= i < |turns| :: s < |turns[i].pre.streams|) && s < |turns[|turns| - 1].post.streams|
    requires var slots := T.TurnSlots(profiles, turns, s);
             && a < |slots|
             && forall k | a <= k < |slots| :: InTime(slots[k], 1_000_000_000.0 / (profiles[s].sendPps as real))
    ensures var slots := T.TurnSlots(profiles, turns, s);
            turns[|turns| - 1].post.streams[s].nextSendTime == slots[a].before
              + (|slots| - a) as real * (1_000_000_000.0 / (profiles[s].sendPps as real))
  {
    hide T.TurnRun, SlotChain, T.TurnSlots, InTime;
    TurnSlotsOfRun(profiles, turns, s);
    WidthTimesRate(0.0, profiles[s].sendPps);
    var slots := T.TurnSlots(profiles, turns, s);
    AdvanceOfChain(slots, 1_000_000_000.0 / (profiles[s].sendPps as real), a, |slots| - 1);
  }
}
