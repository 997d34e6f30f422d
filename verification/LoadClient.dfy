/** The client controller: the receive handler with its statistics, stream selection, and
    PumpSends. Each method is one critical section of the controller's lock; the clock and
    the stop flag belong to the environment and may move between any two looks at them. */
module LoadClient {
  import opened Wire
  import opened Reassembly
  import opened Transport
  import opened Window
  import opened Pacing
  import opened Rotation
  import opened Sums
  import opened Configuration
  import Distribution

  /** The steady clock and the stop flag, which other threads may set at any time. */
  class Environment {
    var now: nat
    var stopSending: bool

    method NowNs() returns (t: nat)
      modifies this
      ensures t == now >= old(now) && (old(stopSending) ==> stopSending)
    {
      var elapsed: int := *;
      var stopped: bool := *;
      now, stopSending := now + (if elapsed > 0 then elapsed else 0), stopSending || stopped;
      t := now;
    }

    method RaiseStop()
      modifies this
      ensures stopSending && now == old(now)
    {
      stopSending := true;
    }

    method StopRequested() returns (stop: bool)
      modifies this
      ensures stop == stopSending && now >= old(now) && (old(stopSending) ==> stopSending)
    {
      var _ := NowNs();
      stop := stopSending;
    }
  }

  datatype StreamState = StreamState(counters: Counters, receiveBuffer: Bytes, nextSendTime: real)

  datatype ConnectionState = ConnectionState(
    streams: seq<StreamState>,
    nextSendTime: real,
    nextOrdinal: nat,
    sendClosed: bool)

  datatype StreamMetrics = StreamMetrics(echoedMessages: nat, echoedBytes: nat, samples: seq<nat>)

  function CountersOf(streams: seq<StreamState>): (cs: seq<Counters>)
    ensures |cs| == |streams|
  {
    seq(|streams|, i requires 0 <= i < |streams| => streams[i].counters)
  }

  function LaneOf(x: StreamState): Lane {
    Lane(x.counters, x.nextSendTime)
  }

  function ScheduleOf(state: ConnectionState, now: nat): (s: Schedule)
    ensures |s.lanes| == |state.streams|
  {
    Schedule(seq(|state.streams|, i requires 0 <= i < |state.streams| => LaneOf(state.streams[i])),
        state.nextOrdinal, now)
  }

  // ---------------------------------------------------------------- what a receive call records

  /** The client's counters and samples, overall and per stream. */
  datatype Totals = Totals(
    receivedMessages: nat,
    receivedBytes: nat,
    latencySamples: seq<nat>,
    metrics: seq<StreamMetrics>)

  function RecordEcho(t: Totals, s: nat, size: nat, latency: nat): (r: Totals)
    requires s < |t.metrics|
    ensures |r.metrics| == |t.metrics|
  {
    var m := t.metrics[s];
    Totals(t.receivedMessages + 1, t.receivedBytes + size, t.latencySamples + [latency],
           t.metrics[s := StreamMetrics(m.echoedMessages + 1, m.echoedBytes + size, m.samples + [latency])])
  }

  /** Receiving `frames` on stream `s`, each timed by its reading, has led from `t` to `t'`:
      every frame is counted with all its bytes and its latency, overall and for its stream. */
  ghost predicate Recorded(t: Totals, t': Totals, s: nat, frames: seq<Bytes>, times: seq<nat>)
    requires s < |t.metrics| && |times| == |frames|
  {
    && t'.receivedMessages == t.receivedMessages + |frames|
    && t'.receivedBytes == t.receivedBytes + |Concat(frames)|
    && t'.latencySamples == t.latencySamples + Latencies(frames, times)
    && |t'.metrics| == |t.metrics|
    && t'.metrics[s].echoedMessages == t.metrics[s].echoedMessages + |frames|
    && t'.metrics[s].echoedBytes == t.metrics[s].echoedBytes + |Concat(frames)|
    && t'.metrics[s].samples == t.metrics[s].samples + Latencies(frames, times)
    && forall o | 0 <= o < |t.metrics| && o != s :: t'.metrics[o] == t.metrics[o]
  }

  /** The message counts agree: over all connections and streams with the received-message
      count and the number of latency samples, and per stream with its metrics. */
  ghost predicate Balanced(t: Totals, echoes: seq<seq<nat>>) {
    && Wide(echoes, |t.metrics|)
    && SumAll(echoes) == t.receivedMessages == |t.latencySamples|
    && forall s | 0 <= s < |t.metrics| ::
         ColumnSum(echoes, |t.metrics|, s) == t.metrics[s].echoedMessages == |t.metrics[s].samples|
  }

  /** Receiving keeps the balance, whatever was received. */
  lemma ReceivingKeepsBalance(t: Totals, t': Totals, echoes: seq<seq<nat>>, id: nat, s: nat, frames: seq<Bytes>,
      times: seq<nat>)
    requires Balanced(t, echoes) && id < |echoes| && s < |t.metrics| && |times| == |frames|
    requires s < |echoes[id]| && Recorded(t, t', s, frames, times)
    ensures Balanced(t', RaiseAt(echoes, id, s, |frames|))
  {
    hide Concat, LatencyAt;
    var raised := RaiseAt(echoes, id, s, |frames|);
    SumAllRaise(echoes, id, s, |frames|);
    forall o | 0 <= o < |t.metrics|
      ensures Wide(raised, |t.metrics|)
      ensures ColumnSum(raised, |t.metrics|, o) == t'.metrics[o].echoedMessages == |t'.metrics[o].samples|
    {
      ColumnSumRaise(echoes, |t.metrics|, id, s, |frames|, o);
    }
  }

  lemma ConnectingKeepsBalance(t: Totals, echoes: seq<seq<nat>>)
    requires Wide(echoes, |t.metrics|) && t.metrics != []
    ensures Wide(echoes + [Zeros(|t.metrics|)], |t.metrics|)
    ensures Balanced(t, echoes) ==> Balanced(t, echoes + [Zeros(|t.metrics|)])
  {
    forall s | 0 <= s < |t.metrics|
      ensures Wide(echoes + [Zeros(|t.metrics|)], |t.metrics|)
      ensures SumAll(echoes + [Zeros(|t.metrics|)]) == SumAll(echoes)
      ensures ColumnSum(echoes + [Zeros(|t.metrics|)], |t.metrics|, s) == ColumnSum(echoes, |t.metrics|, s)
    {
      FreshRow(echoes, |t.metrics|, s);
    }
    FreshRow(echoes, |t.metrics|, 0);
  }

  lemma NothingReceived(n: nat)
    ensures Balanced(Totals(0, 0, [], seq(n, _ => StreamMetrics(0, 0, []))), [])
  {
  }

  /** The connection after stream `pick` has been selected at time `at`. */
  function Served(profiles: seq<Profile>, state: ConnectionState, pick: nat, at: nat): ConnectionState
    requires pick < |profiles| == |state.streams|
  {
    var x := state.streams[pick];
    state.(streams := state.streams[pick := x.(nextSendTime := ServedTime(profiles[pick], LaneOf(x), at))],
           nextOrdinal := Wrap(pick + 1, |profiles|))
  }

  lemma EligibleHasRoom(p: Profile, lane: Lane, at: nat)
    requires Eligible(p, lane, at)
    ensures WindowOpen(p, lane.counters)
  {
  }

  /** A scan that found stream `pick`, followed by building its frame, is a selection. */
  lemma SelectionOfPump(profiles: seq<Profile>, state: ConnectionState, before: nat, from: ConnectionState,
      scanned: nat,
                        pick: nat, at: nat, state': ConnectionState, now: nat)
    requires |profiles| == |state.streams| && state.nextOrdinal < |profiles| && pick < |profiles|
    requires from == state.(nextSendTime := from.nextSendTime) && before <= scanned <= at <= now
    requires Eligible(profiles[pick], LaneOf(from.streams[pick]), at)
    requires SkippedBefore(profiles, ScheduleOf(from, scanned), Distance(from.nextOrdinal, pick, |profiles|))
    requires var s := Served(profiles, from, pick, at);
             var x := s.streams[pick];
             state' == s.(streams := s.streams[pick := x.(counters := CountBuilt(x.counters))])
    ensures Selects(profiles, Selection(ScheduleOf(from, scanned), pick, at, ScheduleOf(state', now)))
    ensures Meanwhile(profiles, ScheduleOf(state, before), ScheduleOf(from, scanned))
    ensures Meanwhile(profiles, ScheduleOf(state', now), ScheduleOf(state', now))
    ensures state'.nextOrdinal < |profiles|
  {
    hide Eligible, SkippedBefore, ServedTime, Visited, Distance, Outstanding;
    WrapOnce(pick + 1, |profiles|);
    var x := from.streams[pick];
    var pre, post := ScheduleOf(from, scanned), ScheduleOf(state', now);
    assert post.lanes == pre.lanes[pick := Lane(CountBuilt(x.counters), ServedTime(profiles[pick], LaneOf(x), at))];
    assert ScheduleOf(from, scanned).lanes == ScheduleOf(state, before).lanes;
  }

  lemma NotDueEarlier(next: real, earlier: nat, now: nat)
    requires !Due(next, now as real) && earlier <= now
    ensures !Due(next, earlier as real)
  {
  }

  /** What was not eligible at the end of a stretch of time was not eligible before. */
  lemma SkippedEarlier(profiles: seq<Profile>, s: Schedule, earlier: nat, attempt: nat)
    requires Shaped(profiles, s) && earlier <= s.now && SkippedBefore(profiles, s, attempt)
    ensures SkippedBefore(profiles, s.(now := earlier), attempt)
  {
    hide Visited, WindowOpen, Due;
    forall a: nat | a < attempt && a < |profiles|
      ensures var o := Visited(s.pointer, a, |profiles|);
              o < |profiles| && !Eligible(profiles[o], s.lanes[o], earlier)
    {
      var o := Visited(s.pointer, a, |profiles|);
      assert !Eligible(profiles[o], s.lanes[o], s.now);
      if Due(s.lanes[o].nextSendTime, earlier as real) {
        DueStaysDue(s.lanes[o].nextSendTime, earlier, s.now);
      }
    }
  }

  lemma ScanOrder(pointer: nat, attempt: nat, n: nat)
    requires n > 0
    ensures Visited(pointer, attempt, n) == (pointer + attempt) % n
  {
  }

  lemma AttemptOf(start: nat, attempt: nat, id: nat, n: nat)
    requires start < n && attempt < n && id == (start + attempt) % n
    ensures id < n && Distance(start, id, n) == attempt
    ensures forall other | 0 <= other < n && other != id :: Distance(start, other, n) != attempt
  {
    hide Visited, Distance;
    ScanOrder(start, attempt, n);
    DistanceIsAttempt(start, attempt, n);
    forall other | 0 <= other < n && other != id
      ensures Distance(start, other, n) != attempt
    {
      VisitedAtDistance(start, other, n);
    }
  }

  lemma SkippedNone(profiles: seq<Profile>, s: Schedule)
    requires Shaped(profiles, s)
    ensures SkippedBefore(profiles, s, 0)
  {
  }

  lemma SkippedOneMore(profiles: seq<Profile>, s: Schedule, attempt: nat)
    requires Shaped(profiles, s) && attempt < |profiles| && SkippedBefore(profiles, s, attempt)
    requires var o := Visited(s.pointer, attempt, |profiles|);
             o < |profiles| && !Eligible(profiles[o], s.lanes[o], s.now)
    ensures SkippedBefore(profiles, s, attempt + 1)
  {
    hide Eligible, Visited;
  }

  /** What the code decides about one stream is eligibility at the time it looks, and a
      stream refused then was not eligible earlier either. */
  lemma ScanDecision(p: Profile, x: StreamState, start: nat, now: nat, eligible: bool, next: real)
    requires start <= now
    requires eligible == (WindowOpen(p, x.counters) && (p.sendPps > 0 ==> Due(x.nextSendTime, now as real)))
    requires eligible ==> next == ServedTime(p, LaneOf(x), now)
    ensures eligible ==> Eligible(p, LaneOf(x), now) && next == ServedTime(p, LaneOf(x), now)
    ensures !eligible ==> !Eligible(p, LaneOf(x), start)
  {
  }

  function ReplaceStream(states: seq<ConnectionState>, id: nat, s: nat, x: StreamState): seq<ConnectionState>
    requires id < |states| && s < |states[id].streams|
  {
    states[id := states[id].(streams := states[id].streams[s := x])]
  }

  function AfterReceive(x: StreamState, rest: Bytes, n: nat): StreamState {
    x.(receiveBuffer := rest, counters := CountEchoed(x.counters, n))
  }

  lemma ReceiveIsMeanwhile(profiles: seq<Profile>, state: ConnectionState, s: nat, rest: Bytes, n: nat, begun: nat,
      now: nat)
    requires |state.streams| == |profiles| && state.nextOrdinal < |profiles| && s < |profiles| && begun <= now
    ensures n <= Outstanding(state.streams[s].counters) ==>
              Meanwhile(profiles, ScheduleOf(state, begun),
                        ScheduleOf(state.(streams := state.streams[s := AfterReceive(state.streams[s], rest, n)]), now))
  {
    hide Outstanding, CountEchoed;
    if n <= Outstanding(state.streams[s].counters) {
      CountingLowersOutstanding(state.streams[s].counters, n);
    }
  }

  lemma RecordNone(t: Totals, s: nat)
    requires s < |t.metrics|
    ensures Recorded(t, t, s, [], [])
  {
    assert t.latencySamples + [] == t.latencySamples && t.metrics[s].samples + [] == t.metrics[s].samples;
  }

  lemma ReceiveNone(x: StreamState)
    requires x.counters.echoedMessages < TWO_TO_64
    ensures x == AfterReceive(x, x.receiveBuffer, 0)
  {
  }

  lemma ReceiveOne(x: StreamState, rest: Bytes, n: nat)
    ensures CountEchoed(AfterReceive(x, rest, n).counters, 1) == AfterReceive(x, rest, n + 1).counters
  {
    WrapAdd(x.counters.echoedMessages + n, 1);
  }

  lemma RecordOne(t: Totals, t': Totals, s: nat, frames: seq<Bytes>, times: seq<nat>, frame: Bytes, time: nat)
    requires s < |t.metrics| && |times| == |frames| && Recorded(t, t', s, frames, times)
    ensures Recorded(t, RecordEcho(t', s, |frame|, LatencyAt(frame, time)), s, frames + [frame], times + [time])
  {
    hide LatencyAt, Concat;
    ConcatSnoc(frames + [frame]);
    assert (frames + [frame])[..|frames|] == frames;
    var latency := [LatencyAt(frame, time)];
    assert Latencies(frames + [frame], times + [time]) == Latencies(frames, times) + latency;
    assert (t.latencySamples + Latencies(frames, times)) + latency
        == t.latencySamples + (Latencies(frames, times) + latency);
    assert (t.metrics[s].samples + Latencies(frames, times)) + latency
        == t.metrics[s].samples + (Latencies(frames, times) + latency);
  }

  lemma HeaderOfPrefix(buffer: Bytes, size: nat)
    requires HEADER_SIZE <= size <= |buffer|
    ensures ReadHeader(buffer[..size]) == ReadHeader(buffer)
  {
    var b := buffer[..size];
    assert b[..4] == buffer[..4] && b[4..8] == buffer[4..8];
    assert b[8..16] == buffer[8..16] && b[16..24] == buffer[16..24];
  }

  lemma EligibleWithRoom(p: Profile, lane: Lane, other: Lane, at: nat)
    requires Eligible(p, lane, at) && WindowOpen(p, other.counters) && other.nextSendTime == lane.nextSendTime
    ensures Eligible(p, other, at) && ServedTime(p, other, at) == ServedTime(p, lane, at)
  {
  }

  lemma NoPicks(profiles: seq<Profile>, cs: seq<Counters>)
    requires |profiles| == |cs| && ValidProfiles(profiles)
    ensures ValidPicks(profiles, cs, []) && Built(profiles, cs, []) == [] && AfterPicks(cs, []) == cs
  {
  }

  /** Stream `o` was due at time `at` and has been counted and put one slot ahead. */
  predicate ServedAt(p: Profile, before: seq<StreamState>, begun: nat, after: seq<StreamState>, ended: nat, o: nat,
                     at: nat)
  {
    && begun <= at <= ended && o < |before| && Eligible(p, LaneOf(before[o]), at)
    && after == before[o := before[o].(counters := CountBuilt(before[o].counters),
                                       nextSendTime := ServedTime(p, LaneOf(before[o]), at))]
  }

  /** One message has gone out of a connection between `begun` and `ended`: the next frame of
      the first eligible stream from the pointer on, which alone has moved. */
  ghost predicate ServedOne(profiles: seq<Profile>, before: ConnectionState, begun: nat, after: ConnectionState,
                            ended: nat, send: Send)
  {
    var n, o := |profiles|, send.stream;
    && ValidProfiles(profiles) && |before.streams| == n && before.nextOrdinal < n && o < n
    && SkippedBefore(profiles, ScheduleOf(before, begun), Distance(before.nextOrdinal, o, n))
    && WindowOpen(profiles[o], before.streams[o].counters)
    && after.nextOrdinal == Wrap(o + 1, n)
    && (exists builtAt: nat :: send.data == BuildFrame(profiles[o], before.streams[o].counters, builtAt))
    && exists at: nat :: ServedAt(profiles[o], before.streams, begun, after.streams, ended, o, at)
  }

  lemma ServedOneWider(profiles: seq<Profile>, before: ConnectionState, begun: nat, after: ConnectionState, ended: nat,
                       send: Send, earlier: nat, later: nat)
    requires ServedOne(profiles, before, begun, after, ended, send) && earlier <= begun && ended <= later
    ensures ServedOne(profiles, before, earlier, after, later, send)
  {
    hide SkippedBefore, Eligible, ServedTime, WindowOpen, BuildFrame, Distance, Wrap;
    assert ScheduleOf(before, begun).(now := earlier) == ScheduleOf(before, earlier);
    SkippedEarlier(profiles, ScheduleOf(before, begun), earlier,
        Distance(before.nextOrdinal, send.stream, |profiles|));
    var at: nat :| ServedAt(profiles[send.stream], before.streams, begun, after.streams, ended, send.stream, at);
    assert ServedAt(profiles[send.stream], before.streams, earlier, after.streams, later, send.stream, at);
  }

  /** What is not eligible once only echoes and time have come was not eligible before. */
  lemma SkippedMeanwhile(profiles: seq<Profile>, s: Schedule, s': Schedule, attempt: nat)
    requires Meanwhile(profiles, s, s') && SkippedBefore(profiles, s', attempt)
    ensures SkippedBefore(profiles, s, attempt)
  {
    hide Eligible, Visited;
    forall a: nat | a < attempt && a < |profiles|
      ensures var o := Visited(s.pointer, a, |profiles|);
              o < |profiles| && !Eligible(profiles[o], s.lanes[o], s.now)
    {
      var o := Visited(s.pointer, a, |profiles|);
      if Eligible(profiles[o], s.lanes[o], s.now) {
        MeanwhileKeepsEligible(profiles, s, s', o);
      }
    }
  }

  /** The connections that were given a message in a pass. */
  ghost predicate GotThrough(sent: seq<(nat, Send)>, id: nat) {
    exists i | 0 <= i < |sent| :: sent[i].0 == id
  }

  /** The messages of a pass: each is the next of a connection that has moved by it alone, and
      the streams of connections without one stand still. */
  ghost predicate Handed(profiles: seq<Profile>, begin: seq<ConnectionState>, after: seq<ConnectionState>,
                         sent: seq<(nat, Send)>, now: nat, ended: nat)
  {
    && |after| == |begin|
    && (forall i | 0 <= i < |sent| ::
          && sent[i].0 < |begin|
          && ServedOne(profiles, begin[sent[i].0], now, after[sent[i].0], ended, sent[i].1))
    && forall id | 0 <= id < |begin| && !GotThrough(sent, id) ::
         after[id].streams == begin[id].streams && after[id].nextOrdinal == begin[id].nextOrdinal
  }

  function SentAfter(sent: seq<(nat, Send)>, id: nat, sends: seq<Send>): seq<(nat, Send)> {
    if sends == [] then sent else sent + [(id, sends[0])]
  }

  lemma ServedStaysServed(sent: seq<(nat, Send)>, longer: seq<(nat, Send)>)
    requires sent <= longer
    ensures forall o :: GotThrough(sent, o) ==> GotThrough(longer, o)
  {
    forall o | GotThrough(sent, o)
      ensures GotThrough(longer, o)
    {
      var i :| 0 <= i < |sent| && sent[i].0 == o;
      assert longer[i].0 == o;
    }
  }

  lemma HandedOneMore(profiles: seq<Profile>, begin: seq<ConnectionState>, after: seq<ConnectionState>,
                      sent: seq<(nat, Send)>, now: nat, ended: nat, id: nat, after': seq<ConnectionState>,
                      sends: seq<Send>, later: nat)
    requires Handed(profiles, begin, after, sent, now, ended) && ended <= later
    requires id < |begin| && !GotThrough(sent, id) && after[id] == begin[id]
    requires |after'| == |after| && forall o | 0 <= o < |after| && o != id :: after'[o] == after[o]
    requires if sends == []
             then after'[id].streams == after[id].streams && after'[id].nextOrdinal == after[id].nextOrdinal
             else ServedOne(profiles, after[id], now, after'[id], later, sends[0])
    ensures Handed(profiles, begin, after', SentAfter(sent, id, sends), now, later)
  {
    hide ServedOne;
    var longer := SentAfter(sent, id, sends);
    forall i | 0 <= i < |longer|
      ensures longer[i].0 < |begin|
      ensures ServedOne(profiles, begin[longer[i].0], now, after'[longer[i].0], later, longer[i].1)
    {
      if i < |sent| {
        assert sent[i].0 != id;
        ServedOneWider(profiles, begin[sent[i].0], now, after[sent[i].0], ended, sent[i].1, now, later);
      }
    }
    ServedStaysServed(sent, longer);
    if sends != [] {
      assert longer[|sent|].0 == id;
    }
  }

  lemma NothingHanded(profiles: seq<Profile>, begin: seq<ConnectionState>, now: nat, ended: nat)
    ensures Handed(profiles, begin, begin, [], now, ended)
  {
  }

  /** Every connection's clock is where the slots taken from its start on have led it. */
  ghost predicate ClocksRan(interval: real, starts: seq<real>, taken: seq<seq<Slot>>, states: seq<ConnectionState>,
                            clock: nat)
  {
    && |starts| == |taken| == |states|
    && forall id | 0 <= id < |states| ::
         ClockRan(starts[id], interval, taken[id], states[id].nextSendTime, clock as real)
  }

  lemma ClocksStand(interval: real, starts: seq<real>, taken: seq<seq<Slot>>, states: seq<ConnectionState>, clock: nat,
                    after: seq<ConnectionState>)
    requires ClocksRan(interval, starts, taken, states, clock) && |after| == |states|
    requires forall id | 0 <= id < |states| :: after[id].nextSendTime == states[id].nextSendTime
    ensures ClocksRan(interval, starts, taken, after, clock)
  {
    hide ClockRan;
  }

  lemma ClocksLater(interval: real, starts: seq<real>, taken: seq<seq<Slot>>, states: seq<ConnectionState>, clock: nat,
                    later: nat)
    requires ClocksRan(interval, starts, taken, states, clock) && clock <= later
    ensures ClocksRan(interval, starts, taken, states, later)
  {
    hide ClockRan;
    forall id | 0 <= id < |states|
      ensures ClockRan(starts[id], interval, taken[id], states[id].nextSendTime, later as real)
    {
      ClockRanLater(starts[id], interval, taken[id], states[id].nextSendTime, clock as real, later as real);
    }
  }

  /** One connection has taken `more` slots. */
  lemma ClocksRunOn(interval: real, starts: seq<real>, taken: seq<seq<Slot>>, states: seq<ConnectionState>, clock: nat,
                    id: nat, more: seq<Slot>, state: ConnectionState, later: nat)
    requires ClocksRan(interval, starts, taken, states, clock) && clock <= later && id < |states|
    requires ClockRan(states[id].nextSendTime, interval, more, state.nextSendTime, later as real)
    requires forall i | 0 <= i < |more| :: clock as real <= more[i].time
    ensures ClocksRan(interval, starts, taken[id := taken[id] + more], states[id := state], later)
  {
    hide ClockRan;
    ClocksLater(interval, starts, taken, states, clock, later);
    ClockRanOn(starts[id], interval, taken[id], states[id].nextSendTime, clock as real, more, state.nextSendTime,
        later as real);
  }

  /** A clock that has never been set starts now. */
  lemma ClocksStart(interval: real, starts: seq<real>, taken: seq<seq<Slot>>, states: seq<ConnectionState>, clock: nat,
                    id: nat, state: ConnectionState)
    requires ClocksRan(interval, starts, taken, states, clock) && id < |states|
    requires states[id].nextSendTime == 0.0 < state.nextSendTime
    ensures ClocksRan(interval, starts, taken, states[id := state], clock)
  {
    hide SlotChain;
    assert ClockRan(starts[id], interval, taken[id], states[id].nextSendTime, clock as real);
  }

  lemma ClocksJoinedBy(interval: real, starts: seq<real>, taken: seq<seq<Slot>>, states: seq<ConnectionState>,
                       clock: nat, state: ConnectionState)
    requires ClocksRan(interval, starts, taken, states, clock) && state.nextSendTime >= 0.0
    ensures ClocksRan(interval, starts + [state.nextSendTime], taken + [[]], states + [state], clock)
  {
    hide ClockRan;
    ClockStands(state.nextSendTime, interval, clock as real);
  }

  /** Slots are only ever added: one by every connection that was served, and at most one by
      the others. */
  ghost predicate TookSlots(before: seq<seq<Slot>>, after: seq<seq<Slot>>, sent: seq<(nat, Send)>) {
    && |after| == |before|
    && (forall id | 0 <= id < |before| :: before[id] <= after[id] && |after[id]| <= |before[id]| + 1)
    && forall i | 0 <= i < |sent| ::
         sent[i].0 < |before| && |after[sent[i].0]| == |before[sent[i].0]| + 1
  }

  /** Successive readings of the clock between two moments. */
  predicate ReadBetween(begun: nat, times: seq<nat>, ended: nat) {
    && (forall i | 0 <= i < |times| :: begun <= times[i] <= ended)
    && forall i, j | 0 <= i < j < |times| :: times[i] <= times[j]
  }

  class LoadClientController {
    const options: Options
    const profiles: seq<Profile>
    const pacing: PacingMode
    const paced: bool
    const interval: real
    const serverCount: nat
    const sendServerIndex: int
    const activeSendConnectionCount: nat

    var states: seq<ConnectionState>
    var totals: Totals
    var globalNextSendTime: real
    var nextPacedConnection: nat
    /** Echoes per connection and stream, never wrapped. */
    ghost var echoes: seq<seq<nat>>
    /** Every look the pacer has taken at the global clock. */
    ghost var looks: seq<Look>
    /** Where each connection's own clock started, every slot of it that has been taken, and
        when these clocks were last read. */
    ghost var starts: seq<real>
    ghost var taken: seq<seq<Slot>>
    ghost var clock: nat

    /** The constants are what the options prescribe. */
    predicate Configured() {
      && ValidOptions(options) && profiles == options.profiles
      && serverCount == options.serverCount && sendServerIndex == options.sendServerIndex
      && pacing == Mode(options) && paced == Paced(options)
      && activeSendConnectionCount == ActiveCount(options)
      && interval == SctpInterval(pacing, options, activeSendConnectionCount)
    }

    /** The global clock is where its history of looks has left it. */
    ghost predicate ClockKept()
      reads this`globalNextSendTime, this`looks
    {
      && Monotone(looks) && globalNextSendTime == AfterLooks(0.0, interval, looks)
      && OnlyDueUsed(0.0, interval, looks)
      && globalNextSendTime >= 0.0
    }

    ghost predicate SlotsKept()
      reads this`states, this`starts, this`taken, this`clock
    {
      ClocksRan(interval, starts, taken, states, clock)
    }

    ghost predicate ValidState(state: ConnectionState, counts: seq<nat>) {
      && |state.streams| == |profiles| == |counts|
      && state.nextOrdinal < |profiles| && state.nextSendTime >= 0.0
      && forall s | 0 <= s < |profiles| :: state.streams[s].counters.echoedMessages == counts[s] % TWO_TO_64
    }

    ghost predicate Valid()
      reads this
    {
      && Configured() && profiles != [] && ValidProfiles(profiles)
      && serverCount > 0 && interval >= 0.0
      && ClockKept() && SlotsKept()
      && |states| <= options.clientCount
      && |totals.metrics| == |profiles| && |echoes| == |states| && Wide(echoes, |profiles|)
      && (forall id | 0 <= id < |states| :: ValidState(states[id], echoes[id]))
    }

    constructor (options: Options)
      requires ValidOptions(options)
      ensures Valid() && Balanced(totals, echoes) && this.options == options
      ensures states == [] && looks == [] && nextPacedConnection == 0 && clock == 0
    {
      this.options := options;
      profiles, serverCount, sendServerIndex := options.profiles, options.serverCount, options.sendServerIndex;
      pacing := Mode(options);
      var streams := Configuration.HasStreamProfilePacing(options.profiles);
      paced := Mode(options) != Unlimited || streams;
      var count := Distribution.ActiveSendConnectionCount(options.clientCount, options.serverCount,
          options.sendServerIndex);
      activeSendConnectionCount := count;
      interval := SctpInterval(Mode(options), options, count);
      states := [];
      totals := Totals(0, 0, [], seq(|options.profiles|, _ => StreamMetrics(0, 0, [])));
      globalNextSendTime, nextPacedConnection := 0.0, 0;
      echoes, looks := [], [];
      starts, taken, clock := [], [], 0;
      new;
      IntervalsAreNonNegative(pacing, options, count);
      NothingReceived(|profiles|);
    }

    predicate ShouldSend(id: nat)
      requires Configured()
    {
      Distribution.ShouldSend(id, serverCount, sendServerIndex)
    }

    /** A connection that sends at a rate of its own has a proper interval. */
    lemma SenderInterval(id: nat)
      requires Configured() && id < options.clientCount && ShouldSend(id) && pacing.PerClientPps?
      ensures interval > 0.0
    {
      IntervalsArePositive(options, id);
    }

    /** The staggered starts of different connections never coincide. */
    lemma StartsAreStaggered(id: nat, other: nat)
      requires Configured() && pacing.PerClientPps? && id < other < options.clientCount
      requires ShouldSend(id) && ShouldSend(other)
      ensures activeSendConnectionCount > 0
      ensures 0.0 <= Distribution.Phase(id, activeSendConnectionCount, interval, serverCount, sendServerIndex)
                   < Distribution.Phase(other, activeSendConnectionCount, interval, serverCount, sendServerIndex)
                   < interval
    {
      hide Distribution.Phase;
      SenderInterval(id);
      Distribution.PhasesAreDistinct(id, other, options.clientCount, interval, serverCount, sendServerIndex);
    }

    /** Every slot of the global clock that has been taken. */
    ghost function GlobalSlots(): seq<Slot>
      reads this`looks
    {
      SlotsOf(0.0, interval, looks)
    }

    /** However often the pacer looks at the global clock, k slots of it span at least k - 6
        intervals. */
    lemma GlobalBurstBound(i: nat, j: nat)
      requires Valid() && interval > 0.0 && i <= j < |GlobalSlots()|
      ensures var slots := GlobalSlots();
              Intervals(j - i + 1 - 6, interval) <= slots[j].time - slots[i].time
    {
      BurstBoundOfHistory(0.0, interval, looks, i, j);
    }

    /** Whatever the connection has gone through, k slots of its own clock span at least k - 6
        intervals; PumpSends takes one for every message. */
    lemma ConnectionBurstBound(id: nat, i: nat, j: nat)
      requires Valid() && pacing.PerClientPps? && id < |states| && ShouldSend(id)
      requires |taken| == |states| && i <= j < |taken[id]|
      ensures Intervals(j - i + 1 - 6, interval) <= taken[id][j].time - taken[id][i].time
    {
      hide ShouldSend, ClockRan, SlotChain, ValidOptions;
      SenderInterval(id);
      ChainOfClock(starts[id], interval, taken[id], states[id].nextSendTime, clock as real);
      BurstBound(taken[id], interval, i, j);
    }

    /** The extraction loop of OnData: each complete frame is counted, timed and recorded. */
    method ExtractEchoes(s: nat, x: StreamState, env: Environment)
      returns (x': StreamState, error: Option<FrameError>, ghost frames: seq<Bytes>, ghost times: seq<nat>)
      requires s < |profiles| == |totals.metrics| && x.counters.echoedMessages < TWO_TO_64
      modifies this`totals, env
      ensures Parsed(frames, x'.receiveBuffer, error) == ParseAll(x.receiveBuffer, profiles[s].messageSize)
      ensures x' == AfterReceive(x, x'.receiveBuffer, |frames|)
      ensures env.now >= old(env.now)
      ensures |times| == |frames| && ReadBetween(old(env.now), times, env.now)
      ensures |totals.metrics| == |profiles| && Recorded(old(totals), totals, s, frames, times)
    {
      hide ParseAll, TryPeekFrameSize, Recorded, ReadHeader, CountEchoed;
      RecordNone(totals, s);
      ReceiveNone(x);
      ghost var whole := x.receiveBuffer;
      var size := profiles[s].messageSize;
      x', frames, times, error := x, [], [], None;
      assert [] + ParseAll(whole, size).frames == ParseAll(whole, size).frames;
      while true
        invariant ParseAll(whole, size) == Resume(frames, ParseAll(x'.receiveBuffer, size))
        invariant x' == AfterReceive(x, x'.receiveBuffer, |frames|)
        invariant |times| == |frames| && env.now >= old(env.now) && error == None
        invariant ReadBetween(old(env.now), times, env.now)
        invariant |totals.metrics| == |profiles|
        invariant Recorded(old(totals), totals, s, frames, times)
        decreases |x'.receiveBuffer|
      {
        match TryPeekFrameSize(x'.receiveBuffer, size) {
          case Incomplete =>
            NothingMore(x'.receiveBuffer, size);
            assert frames + [] == frames;
            return;
          case Malformed(e) =>
            NothingMore(x'.receiveBuffer, size);
            assert frames + [] == frames;
            error := Some(e);
            return;
          case Complete(frameSize) =>
            var header := ReadHeader(x'.receiveBuffer);
            ghost var frame := x'.receiveBuffer[..frameSize];
            HeaderOfPrefix(x'.receiveBuffer, frameSize);
            ResumeOne(frames, x'.receiveBuffer, size);
            ReceiveOne(x, x'.receiveBuffer[frameSize..], |frames|);
            x' := x'.(receiveBuffer := x'.receiveBuffer[frameSize..], counters := CountEchoed(x'.counters, 1));
            var t := env.NowNs();
            RecordOne(old(totals), totals, s, frames, times, frame, t);
            totals := RecordEcho(totals, s, frameSize, (t - header.timestamp) % TWO_TO_64);
            frames, times := frames + [frame], times + [t];
        }
      }
    }

    lemma StateShape(state: ConnectionState, counts: seq<nat>)
      requires ValidState(state, counts)
      ensures |state.streams| == |profiles| == |counts| && state.nextOrdinal < |profiles|
      ensures forall s | 0 <= s < |profiles| :: state.streams[s].counters.echoedMessages < TWO_TO_64
    {
    }

    lemma ReceivingKeepsState(state: ConnectionState, counts: seq<nat>, s: nat, rest: Bytes, n: nat)
      requires ValidState(state, counts) && s < |profiles| == |state.streams| == |counts|
      ensures ValidState(state.(streams := state.streams[s := AfterReceive(state.streams[s], rest, n)]),
                         Raise(counts, s, n))
    {
      WrapAdd(counts[s], n);
    }

    /** The locked part of OnData for stream `s` of connection `id`: everything recorded is
        a function of the frames of the one-shot parse and of the clock readings. */
    method OnData(id: nat, s: nat, data: Bytes, env: Environment)
      returns (error: Option<FrameError>, ghost frames: seq<Bytes>, ghost times: seq<nat>)
      requires Valid() && id < |states| && s < |profiles|
      modifies this`states, this`totals, this`echoes, env
      ensures Valid()
      ensures old(Balanced(totals, echoes)) ==> Balanced(totals, echoes)
      ensures id < |states| && s < |states[id].streams|
      ensures Parsed(frames, states[id].streams[s].receiveBuffer, error)
              == ParseAll(old(states[id].streams[s].receiveBuffer) + data, profiles[s].messageSize)
      ensures states == ReplaceStream(old(states), id, s,
                          AfterReceive(old(states[id].streams[s]), states[id].streams[s].receiveBuffer, |frames|))
      ensures |times| == |frames| && ReadBetween(old(env.now), times, env.now)
      ensures Recorded(old(totals), totals, s, frames, times)
      // echoes that were outstanding take no stream's turn away
      ensures |frames| <= Outstanding(old(states)[id].streams[s].counters) ==>
                Meanwhile(profiles, ScheduleOf(old(states)[id], old(env.now)), ScheduleOf(states[id], env.now))
    {
      hide ParseAll, Recorded, Balanced, Wide, Configured, ClockKept, Meanwhile, Outstanding,
          ClocksRan, ReadBetween, ValidState, CountEchoed;
      StateShape(states[id], echoes[id]);
      var x := states[id].streams[s];
      x := x.(receiveBuffer := x.receiveBuffer + data);
      x, error, frames, times := ExtractEchoes(s, x, env);
      ReceiveIsMeanwhile(profiles, states[id], s, x.receiveBuffer, |frames|, old(env.now), env.now);
      ClocksStand(interval, starts, taken, states, clock, ReplaceStream(states, id, s, x));
      ReceivingKeepsState(states[id], echoes[id], s, x.receiveBuffer, |frames|);
      states := ReplaceStream(states, id, s, x);
      WideRaise(echoes, id, s, |frames|);
      echoes := RaiseAt(echoes, id, s, |frames|);
      if old(Balanced(totals, echoes)) {
        ReceivingKeepsBalance(old(totals), totals, old(echoes), id, s, frames, times);
      }
    }

    /** One scan for the next stream to serve. Streams before the pick were not eligible when
        the scan began; without a pick none was. */
    method SelectStream(state: ConnectionState, env: Environment)
      returns (state': ConnectionState, pick: Option<nat>, ghost at: nat)
      requires profiles != [] && |state.streams| == |profiles| && state.nextOrdinal < |profiles|
      modifies env
      ensures env.now >= old(env.now) && (old(env.stopSending) ==> env.stopSending)
      ensures pick.None? ==> state' == state && SkippedBefore(profiles, ScheduleOf(state, old(env.now)), |profiles|)
      ensures pick.Some? ==>
                && pick.value < |profiles| && old(env.now) <= at <= env.now
                && Eligible(profiles[pick.value], LaneOf(state.streams[pick.value]), at)
                && SkippedBefore(profiles, ScheduleOf(state, old(env.now)),
                    Distance(state.nextOrdinal, pick.value, |profiles|))
                && state' == Served(profiles, state, pick.value, at)
    {
      hide Eligible, Visited, Distance, Wrap, SkippedBefore;
      ghost var start := ScheduleOf(state, env.now);
      state', pick, at := state, None, env.now;
      SkippedNone(profiles, start);
      for attempt := 0 to |profiles|
        invariant SkippedBefore(profiles, start, attempt)
        invariant env.now >= old(env.now) && (old(env.stopSending) ==> env.stopSending)
        invariant state' == state && pick.None?
      {
        DistanceIsAttempt(state.nextOrdinal, attempt, |profiles|);
        var ordinal := (state.nextOrdinal + attempt) % |profiles|;
        assert ordinal == Visited(state.nextOrdinal, attempt, |profiles|)
            by { ScanOrder(state.nextOrdinal, attempt, |profiles|); }
        var stream, profile := state.streams[ordinal], profiles[ordinal];
        var now := env.now;
        var nextSendTime := stream.nextSendTime;
        var eligible := Outstanding(stream.counters) < profile.maxInflight;
        if eligible && profile.sendPps > 0 {
          now := env.NowNs();
          if nextSendTime == 0.0 {
            nextSendTime := now as real;
          }
          if nextSendTime > now as real {
            eligible := false;
          } else {
            var interval := 1_000_000_000.0 / (profile.sendPps as real);
            nextSendTime := nextSendTime + interval;
            if nextSendTime + (interval * 4.0) < now as real {
              nextSendTime := now as real;
            }
          }
        }
        ScanDecision(profile, stream, old(env.now), now, eligible, nextSendTime);
        if eligible {
          at := now;
          pick := Some(ordinal);
          state' := state.(streams := state.streams[ordinal := stream.(nextSendTime := nextSendTime)],
                           nextOrdinal := Wrap(ordinal + 1, |profiles|));
          return;
        }
        SkippedOneMore(profiles, start, attempt);
      }
    }

    /** The connection's own pacing slot, in per-client mode; taken whether or not a stream
        is then found. */
    method TakeSlot(state: ConnectionState, env: Environment)
      returns (state': ConnectionState, granted: bool, ghost at: nat)
      modifies env
      ensures at == env.now >= old(env.now) && (old(env.stopSending) ==> env.stopSending)
      ensures granted == Due(state.nextSendTime, at as real)
      ensures state' == state.(nextSendTime := AfterLook(state.nextSendTime, interval, Look(at as real, true)))
    {
      var now := env.NowNs();
      at := now;
      state' := state;
      if state'.nextSendTime == 0.0 {
        state' := state'.(nextSendTime := now as real);
      }
      granted := state'.nextSendTime <= now as real;
      if granted {
        state' := state'.(nextSendTime := state'.nextSendTime + interval);
        if state'.nextSendTime + (interval * 4.0) < now as real {
          state' := state'.(nextSendTime := now as real);
        }
      }
    }

    /** The connection could not send at time `now`: its own slot was not due, or no stream
        was eligible. */
    ghost predicate NothingDue(state: ConnectionState, now: nat)
      requires |state.streams| == |profiles| && state.nextOrdinal < |profiles|
    {
      || (pacing.PerClientPps? && !Due(state.nextSendTime, now as real))
      || SkippedBefore(profiles, ScheduleOf(state, now), |profiles|)
    }

    /** One turn of the sending loop took the connection from `state` to `state'`: with a
        message, `pick` and `sel` say which stream was served and how it was chosen. */
    ghost predicate Turned(state: ConnectionState, begun: nat, state': ConnectionState, now: nat,
                           send: Option<Send>, pick: Pick, sel: Selection, slots: seq<Slot>)
      requires ValidProfiles(profiles) && |state.streams| == |profiles| && state.nextOrdinal < |profiles|
    {
      && |state'.streams| == |profiles| && state'.nextOrdinal < |profiles| && state'.sendClosed == state.sendClosed
      && (forall s | 0 <= s < |profiles| :: state'.streams[s].receiveBuffer == state.streams[s].receiveBuffer)
      && (if pacing.PerClientPps?
          then |slots| <= 1 && ClockRan(state.nextSendTime, interval, slots, state'.nextSendTime, now as real)
          else slots == [] && state'.nextSendTime == state.nextSendTime)
      && begun <= now && (forall i | 0 <= i < |slots| :: begun as real <= slots[i].time)
      && (send.None? ==>
            state'.streams == state.streams && state'.nextOrdinal == state.nextOrdinal && NothingDue(state, begun))
      && (send.Some? ==>
            && pick.ordinal == sel.pick < |profiles|
            && WindowOpen(profiles[pick.ordinal], state.streams[pick.ordinal].counters)
            && CountersOf(state'.streams)
               == CountersOf(state.streams)[pick.ordinal := CountBuilt(state.streams[pick.ordinal].counters)]
            && send.value == Send(pick.ordinal, BuildFrame(profiles[pick.ordinal],
                                                          state.streams[pick.ordinal].counters, pick.builtAt))
            && Meanwhile(profiles, ScheduleOf(state, begun), sel.pre) && Selects(profiles, sel)
            && Meanwhile(profiles, sel.post, ScheduleOf(state', now))
            && (pacing.PerClientPps? ==> |slots| == 1))
    }

    /** In per-client mode every message takes one slot, and a call at most one without a
        message, which it does not when it has reached its limit. */
    predicate SlotsFit(sent: nat, slots: nat, limit: nat) {
      pacing.PerClientPps? ==> sent <= slots <= sent + 1 && (sent == limit ==> slots == sent)
    }

    /** One turn of the sending loop: take the connection's slot, select a stream, build its
        next frame. */
    method PumpOne(state: ConnectionState, env: Environment)
      returns (state': ConnectionState, send: Option<Send>, ghost pick: Pick, ghost sel: Selection,
          ghost slots: seq<Slot>)
      requires profiles != [] && ValidProfiles(profiles) && |state.streams| == |profiles|
          && state.nextOrdinal < |profiles|
      requires pacing.PerClientPps? ==> interval > 0.0 && state.nextSendTime >= 0.0 && env.now > 0
      modifies env
      ensures env.now >= old(env.now) && (old(env.stopSending) ==> env.stopSending)
      ensures Turned(state, old(env.now), state', env.now, send, pick, sel, slots)
      ensures SlotsFit(if send.Some? then 1 else 0, |slots|, 1)
    {
      hide Eligible, SkippedBefore, ServedTime, Visited, Distance, Wrap, ClockRan, AfterLook, Due, Frame;
      send, pick, slots, state' := None, Pick(0, 0), [], state;
      sel := Selection(ScheduleOf(state, env.now), 0, 0, ScheduleOf(state, env.now));
      ghost var before := env.now;
      var granted := true;
      if pacing.PerClientPps? {
        ghost var at;
        state', granted, at := TakeSlot(state, env);
        ClockStands(state.nextSendTime, interval, before as real);
        ClockLook(state.nextSendTime, interval, [], state.nextSendTime, before as real, at as real);
        if granted {
          slots := [Slot(at as real, StartedAt(state.nextSendTime, at as real), state'.nextSendTime)];
          assert [] + slots == slots;
        } else {
          assert [] + [] == slots;
          NotDueEarlier(state.nextSendTime, before, at);
        }
      }
      if granted {
        ghost var scanned, from := env.now, state';
        var chosen;
        ghost var at;
        state', chosen, at := SelectStream(state', env);
        if chosen.None? {
          assert ScheduleOf(from, scanned).(now := before) == ScheduleOf(state, before);
          SkippedEarlier(profiles, ScheduleOf(from, scanned), before, |profiles|);
        } else {
          var ordinal := chosen.value;
          var stream, profile := state'.streams[ordinal], profiles[ordinal];
          var builtAt := env.NowNs();
          EligibleHasRoom(profile, LaneOf(from.streams[ordinal]), at);
          var frame := BuildFrame(profile, stream.counters, builtAt);
          state' := state'.(streams := state'.streams[ordinal := stream.(counters := CountBuilt(stream.counters))]);
          send, pick := Some(Send(ordinal, frame)), Pick(ordinal, builtAt);
          sel := Selection(ScheduleOf(from, scanned), ordinal, at, ScheduleOf(state', env.now));
          SelectionOfPump(profiles, state, before, from, scanned, ordinal, at, state', env.now);
          assert CountersOf(state'.streams) == CountersOf(state.streams)[ordinal := CountBuilt(stream.counters)];
        }
        if pacing.PerClientPps? {
          ClockRanLater(state.nextSendTime, interval, slots, state'.nextSendTime, scanned as real, env.now as real);
        }
      }
    }

    lemma NothingDueEarlier(state: ConnectionState, earlier: nat, now: nat)
      requires |state.streams| == |profiles| && state.nextOrdinal < |profiles| && earlier <= now
      ensures NothingDue(state, now) ==> NothingDue(state, earlier)
    {
      hide SkippedBefore, Due;
      if NothingDue(state, now) {
        if SkippedBefore(profiles, ScheduleOf(state, now), |profiles|) {
          assert ScheduleOf(state, now).(now := earlier) == ScheduleOf(state, earlier);
          SkippedEarlier(profiles, ScheduleOf(state, now), earlier, |profiles|);
        } else {
          NotDueEarlier(state.nextSendTime, earlier, now);
        }
      }
    }

    method AllStreamsDrained(state: ConnectionState) returns (drained: bool)
      ensures drained == AllDrained(CountersOf(state.streams))
    {
      for ordinal := 0 to |state.streams|
        invariant forall s | 0 <= s < ordinal ::
                    state.streams[s].counters.nextSequence == state.streams[s].counters.echoedMessages
      {
        var c := state.streams[ordinal].counters;
        if c.nextSequence != c.echoedMessages {
          assert CountersOf(state.streams)[ordinal] == c;
          return false;
        }
      }
      return true;
    }

    /** Nothing but the windows limits what this connection may send. */
    ghost predicate Unthrottled() {
      !pacing.PerClientPps? && forall s | 0 <= s < |profiles| :: profiles[s].sendPps == 0
    }

    /** What PumpSends has done to one connection since it began: the frames it built are
        those of `picks`, each picked by rotation; no window was overrun and no free place
        was lost count of; in per-client mode every message had its own pacing slot. */
    ghost predicate Pumped(before: ConnectionState, begun: nat, state: ConnectionState, now: nat,
                           sends: seq<Send>, picks: seq<Pick>, sels: seq<Selection>, slots: seq<Slot>)
      requires ValidProfiles(profiles) && |before.streams| == |profiles|
    {
      var c0 := CountersOf(before.streams);
      && |state.streams| == |profiles| && state.nextOrdinal < |profiles|
      && begun <= now && (forall i | 0 <= i < |slots| :: begun as real <= slots[i].time)
      && (forall s | 0 <= s < |profiles| :: state.streams[s].receiveBuffer == before.streams[s].receiveBuffer)
      && ValidPicks(profiles, c0, picks)
      && CountersOf(state.streams) == AfterPicks(c0, picks)
      && sends == Built(profiles, c0, picks)
      && |sends| == |picks| == |sels|
      && (forall i | 0 <= i < |picks| :: sels[i].pick == picks[i].ordinal)
      && Leads(profiles, ScheduleOf(before, begun), sels, ScheduleOf(state, now))
      && |sends| + FreeSpace(profiles, CountersOf(state.streams)) == FreeSpace(profiles, c0)
      && if pacing.PerClientPps?
         then |sends| <= |slots| && ClockRan(before.nextSendTime, interval, slots, state.nextSendTime, now as real)
         else state.nextSendTime == before.nextSendTime
    }

    lemma PumpedNothing(state: ConnectionState, now: nat)
      requires profiles != [] && ValidProfiles(profiles) && |state.streams| == |profiles|
          && state.nextOrdinal < |profiles|
      requires pacing.PerClientPps? ==> state.nextSendTime >= 0.0
      ensures Pumped(state, now, state, now, [], [], [], [])
    {
      hide FreeSpace;
      TimePasses(profiles, ScheduleOf(state, now), now);
      if pacing.PerClientPps? {
        ClockStands(state.nextSendTime, interval, now as real);
      }
    }

    lemma PumpedLater(before: ConnectionState, begun: nat, state: ConnectionState, now: nat, later: nat,
                      sends: seq<Send>, picks: seq<Pick>, sels: seq<Selection>, slots: seq<Slot>)
      requires ValidProfiles(profiles) && |before.streams| == |profiles| && now <= later
      requires Pumped(before, begun, state, now, sends, picks, sels, slots)
      ensures Pumped(before, begun, state, later, sends, picks, sels, slots)
    {
      hide FreeSpace, Leads, Meanwhile, ClockRan, Built, ValidPicks;
      TimePasses(profiles, ScheduleOf(state, now), later);
      assert ScheduleOf(state, now).(now := later) == ScheduleOf(state, later);
      LeadsLater(profiles, ScheduleOf(before, begun), sels, ScheduleOf(state, now), ScheduleOf(state, later));
      if pacing.PerClientPps? {
        ClockRanLater(before.nextSendTime, interval, slots, state.nextSendTime, now as real, later as real);
      }
    }

    lemma FreeDrops(cs: seq<Counters>, o: nat)
      requires ValidProfiles(profiles) && |cs| == |profiles| && o < |cs| && WindowOpen(profiles[o], cs[o])
      ensures FreeSpace(profiles, cs[o := CountBuilt(cs[o])]) == FreeSpace(profiles, cs) - 1
    {
      hide FreeSpace, WindowOpen, FreeOf, Outstanding;
      FreeUpdate(profiles, cs, o, CountBuilt(cs[o]));
      BuildingUsesOne(profiles[o], cs[o]);
    }

    /** A scan that found nothing, with no stream paced, found every window full. */
    lemma FullWhenNothingFound(state: ConnectionState, now: nat)
      requires ValidProfiles(profiles) && |state.streams| == |profiles| && state.nextOrdinal < |profiles|
      requires Unthrottled() && SkippedBefore(profiles, ScheduleOf(state, now), |profiles|)
      ensures FreeSpace(profiles, CountersOf(state.streams)) == 0
    {
      hide FreeSpace, WindowOpen, Visited, Distance;
      forall s | 0 <= s < |profiles|
        ensures !WindowOpen(profiles[s], CountersOf(state.streams)[s])
      {
        VisitedAtDistance(state.nextOrdinal, s, |profiles|);
        assert !Eligible(profiles[s], ScheduleOf(state, now).lanes[s], now);
      }
      FreeIsZeroWhenFull(profiles, CountersOf(state.streams));
    }

    lemma TurnFoundNothing(state: ConnectionState, begun: nat, state': ConnectionState, now: nat,
                           pick: Pick, sel: Selection, slots: seq<Slot>)
      requires ValidProfiles(profiles) && |state.streams| == |profiles| && state.nextOrdinal < |profiles|
      requires Turned(state, begun, state', now, None, pick, sel, slots)
      ensures NothingDue(state, begun)
    {
      hide NothingDue;
    }

    /** One more turn of the loop extends what PumpSends has done. */
    lemma PumpedOneMore(before: ConnectionState, begun: nat, state: ConnectionState, now: nat,
                        sends: seq<Send>, picks: seq<Pick>, sels: seq<Selection>, slots: seq<Slot>,
                        state': ConnectionState, later: nat, send: Option<Send>, pick: Pick, sel: Selection,
                            more: seq<Slot>)
      requires ValidProfiles(profiles) && |before.streams| == |profiles|
      requires Pumped(before, begun, state, now, sends, picks, sels, slots)
      requires Turned(state, now, state', later, send, pick, sel, more)
      ensures |state'.streams| == |profiles| && state'.nextOrdinal < |profiles| && state'.sendClosed == state.sendClosed
      ensures state.nextSendTime >= 0.0 ==> state'.nextSendTime >= 0.0
      ensures send.None? ==>
                && Pumped(before, begun, state', later, sends, picks, sels, slots + more)
                && (Unthrottled() ==> FreeSpace(profiles, CountersOf(state'.streams)) == 0)
      ensures send.Some? ==>
                && Pumped(before, begun, state', later, sends + [send.value], picks + [pick], sels + [sel],
                          slots + more)
                && FreeSpace(profiles, CountersOf(state'.streams)) < FreeSpace(profiles, CountersOf(state.streams))
    {
      hide FreeSpace, Leads, Meanwhile, ClockRan, SlotChain, Built, ValidPicks, AfterPicks, Selects, SkippedBefore,
          WindowOpen, BuildFrame;
      var s0 := ScheduleOf(before, begun);
      if pacing.PerClientPps? {
        ClockRanOn(before.nextSendTime, interval, slots, state.nextSendTime, now as real, more,
            state'.nextSendTime, later as real);
        ClockIsNonNegative(before.nextSendTime, interval, slots + more, state'.nextSendTime, later as real);
      }
      if send.None? {
        assert ScheduleOf(state', later) == ScheduleOf(state, now).(now := later);
        TimePasses(profiles, ScheduleOf(state, now), later);
        LeadsLater(profiles, s0, sels, ScheduleOf(state, now), ScheduleOf(state', later));
        if Unthrottled() {
          assert SkippedBefore(profiles, ScheduleOf(state, now), |profiles|);
          FullWhenNothingFound(state, now);
        }
      } else {
        OneMorePick(profiles, CountersOf(before.streams), picks, pick);
        FreeDrops(CountersOf(state.streams), pick.ordinal);
        LeadsThroughOneMore(profiles, s0, sels, ScheduleOf(state, now), sel, ScheduleOf(state', later));
      }
    }

    lemma PumpedIgnoresClosing(before: ConnectionState, begun: nat, state: ConnectionState, now: nat,
                               sends: seq<Send>, picks: seq<Pick>, sels: seq<Selection>, slots: seq<Slot>, closed: bool)
      requires ValidProfiles(profiles) && |before.streams| == |profiles|
      requires Pumped(before, begun, state, now, sends, picks, sels, slots)
      ensures Pumped(before, begun, state.(sendClosed := closed), now, sends, picks, sels, slots)
      ensures |sends| + FreeSpace(profiles, CountersOf(state.streams))
           == FreeSpace(profiles, CountersOf(before.streams))
    {
      hide FreeSpace, Leads, ClockRan, Built, ValidPicks, AfterPicks;
      assert ScheduleOf(state.(sendClosed := closed), now) == ScheduleOf(state, now);
    }

    lemma PumpedKeepsEchoes(before: ConnectionState, begun: nat, state: ConnectionState, now: nat,
                            sends: seq<Send>, picks: seq<Pick>, sels: seq<Selection>, slots: seq<Slot>)
      requires ValidProfiles(profiles) && |before.streams| == |profiles|
      requires Pumped(before, begun, state, now, sends, picks, sels, slots)
      ensures |state.streams| == |profiles| && state.nextOrdinal < |profiles|
      ensures forall s | 0 <= s < |profiles| ::
                state.streams[s].counters.echoedMessages == before.streams[s].counters.echoedMessages
    {
      hide FreeSpace, Leads, ClockRan, Built, ValidPicks, AfterPicks;
      PicksKeepEchoes(CountersOf(before.streams), picks);
      assert forall s | 0 <= s < |profiles| :: state.streams[s].counters == CountersOf(state.streams)[s];
      assert forall s | 0 <= s < |profiles| :: before.streams[s].counters == CountersOf(before.streams)[s];
    }

    /** The sending loop of PumpSends on one connection. */
    method SendLoop(id: nat, before: ConnectionState, maxMessages: nat, env: Environment)
      returns (state: ConnectionState, sends: seq<Send>, ghost picks: seq<Pick>, ghost sels: seq<Selection>,
          ghost slots: seq<Slot>)
      requires Configured() && ValidProfiles(profiles) && profiles != [] && id < options.clientCount && env.now > 0
      requires |before.streams| == |profiles| && before.nextOrdinal < |profiles|
      requires !before.sendClosed && before.nextSendTime >= 0.0
      modifies env
      ensures env.now >= old(env.now) && (old(env.stopSending) ==> env.stopSending)
      ensures !state.sendClosed && state.nextSendTime >= 0.0 && |sends| <= maxMessages
      ensures Pumped(before, old(env.now), state, env.now, sends, picks, sels, slots)
      ensures SlotsFit(|sends|, |slots|, maxMessages)
      ensures !ShouldSend(id) || old(env.stopSending) ==> sends == []
      ensures sends == [] && maxMessages > 0 && ShouldSend(id) && !env.stopSending ==> NothingDue(before, old(env.now))
      ensures Unthrottled() && ShouldSend(id) && !env.stopSending && |sends| < maxMessages ==>
                |state.streams| == |profiles| && FreeSpace(profiles, CountersOf(state.streams)) == 0
    {
      hide Pumped, Turned, FreeSpace, ClockRan, Leads, NothingDue, Configured, ValidProfiles;
      state, sends, picks, sels, slots := before, [], [], [], [];
      ghost var begun := env.now;
      PumpedNothing(state, begun);
      var running := ShouldSend(id) && |sends| < maxMessages;
      if running {
        var stop := env.StopRequested();
        running := !stop;
        if pacing.PerClientPps? {
          SenderInterval(id);
        }
      }
      PumpedLater(before, begun, state, begun, env.now, sends, picks, sels, slots);
      while running
        invariant |state.streams| == |profiles| && state.nextOrdinal < |profiles| && !state.sendClosed
        invariant env.now >= begun > 0 && (old(env.stopSending) ==> env.stopSending)
        invariant state.nextSendTime >= 0.0
        invariant Pumped(before, begun, state, env.now, sends, picks, sels, slots)
        invariant |sends| <= maxMessages && SlotsFit(|sends|, |slots|, maxMessages)
        invariant running && pacing.PerClientPps? ==> |slots| == |sends|
        invariant running ==> |sends| < maxMessages && ShouldSend(id) && !old(env.stopSending)
        invariant !ShouldSend(id) || old(env.stopSending) ==> sends == []
        invariant !running && Unthrottled() && ShouldSend(id) && !env.stopSending && |sends| < maxMessages ==>
                    FreeSpace(profiles, CountersOf(state.streams)) == 0
        invariant running && sends == [] ==> state == before
        invariant !running && sends == [] && maxMessages > 0 && ShouldSend(id) && !env.stopSending ==>
                    NothingDue(before, begun)
        decreases running, FreeSpace(profiles, CountersOf(state.streams))
      {
        ghost var earlier, from := state, env.now;
        var send;
        ghost var pick, sel, more;
        state, send, pick, sel, more := PumpOne(state, env);
        PumpedOneMore(before, begun, earlier, from, sends, picks, sels, slots, state, env.now, send, pick, sel, more);
        slots := slots + more;
        if send.None? {
          running := false;
          if sends == [] {
            TurnFoundNothing(earlier, from, state, env.now, pick, sel, more);
            NothingDueEarlier(before, begun, from);
          }
        } else {
          sends, picks, sels := sends + [send.value], picks + [pick], sels + [sel];
          running := |sends| < maxMessages;
          if running {
            ghost var built := env.now;
            var stop := env.StopRequested();
            running := !stop;
            PumpedLater(before, begun, state, built, env.now, sends, picks, sels, slots);
          }
        }
      }
    }

    lemma SlotsMatchStates()
      requires SlotsKept()
      ensures |taken| == |states|
    {
      hide ClockRan;
    }

    lemma CallTookSlots(id: nat, begun: nat, state: ConnectionState, now: nat, sends: seq<Send>, picks: seq<Pick>,
                        sels: seq<Selection>, slots: seq<Slot>)
      requires SlotsKept() && id < |states| == |taken| && clock <= begun
      requires ValidProfiles(profiles) && |states[id].streams| == |profiles|
      requires Pumped(states[id], begun, state, now, sends, picks, sels, slots)
      ensures ClocksRan(interval, starts, if pacing.PerClientPps? then taken[id := taken[id] + slots] else taken,
                        states[id := state], now)
    {
      hide ClockRan, FreeSpace, Leads, Built, ValidPicks, AfterPicks;
      if pacing.PerClientPps? {
        ClocksRunOn(interval, starts, taken, states, clock, id, slots, state, now);
      } else {
        ClocksLater(interval, starts, taken, states, clock, now);
      }
    }

    /** PumpSends up to the release of the lock: which messages are left to submit, and
        whether the caller has to close the send side afterwards. */
    method PumpSends(id: nat, maxMessages: nat, env: Environment)
      returns (sends: seq<Send>, closing: bool, ghost picks: seq<Pick>, ghost sels: seq<Selection>,
          ghost slots: seq<Slot>)
      requires Valid() && env.now > 0 && clock <= env.now
      modifies this`states, this`taken, this`clock, env
      ensures env.now >= old(env.now) && (old(env.stopSending) ==> env.stopSending)
      ensures Valid() && |states| == |old(states)| == |old(taken)| && clock <= env.now
      ensures forall other | 0 <= other < |states| && other != id :: states[other] == old(states[other])
      // an unknown or closed connection is left alone
      ensures !(id < |states| && !old(states)[id].sendClosed) ==>
                sends == [] && !closing && states == old(states) && taken == old(taken)
      // otherwise the messages are built by rotation, within the windows and the pacing
      ensures id < |states| && !old(states)[id].sendClosed ==>
                && Pumped(old(states)[id], old(env.now), states[id], env.now, sends, picks, sels, slots)
                && |sends| <= maxMessages && SlotsFit(|sends|, |slots|, maxMessages)
                && (!ShouldSend(id) || old(env.stopSending) ==> sends == [])
                && closing == states[id].sendClosed == (env.stopSending && AllDrained(CountersOf(states[id].streams)))
      ensures id < |states| && !old(states)[id].sendClosed ==>
                taken == if pacing.PerClientPps? then old(taken)[id := old(taken)[id] + slots] else old(taken)
      // a call that sends nothing, though it may, found nothing that could be sent
      ensures id < |states| && !old(states)[id].sendClosed && sends == [] && maxMessages > 0
              && ShouldSend(id) && !env.stopSending ==>
                && |old(states)[id].streams| == |profiles| && old(states)[id].nextOrdinal < |profiles|
                && NothingDue(old(states)[id], old(env.now))
      // and with nothing else in the way every window is filled
      ensures id < |states| && !old(states)[id].sendClosed && Unthrottled() && ShouldSend(id) && !env.stopSending
              && FreeSpace(profiles, CountersOf(old(states)[id].streams)) <= maxMessages ==>
                && FreeSpace(profiles, CountersOf(states[id].streams)) == 0
                && |sends| == FreeSpace(profiles, CountersOf(old(states)[id].streams))
    {
      hide Pumped, FreeSpace, AllDrained, NothingDue, ClockKept, Configured, Unthrottled,
          ClocksRan;
      SlotsMatchStates();
      sends, closing, picks, sels, slots := [], false, [], [], [];
      if id >= |states| || states[id].sendClosed {
        return;
      }
      ghost var before, begun := states[id], env.now;
      var state;
      state, sends, picks, sels, slots := SendLoop(id, states[id], maxMessages, env);
      ghost var released := env.now;
      var stop := env.StopRequested();
      PumpedLater(before, begun, state, released, env.now, sends, picks, sels, slots);
      PumpedKeepsEchoes(before, begun, state, env.now, sends, picks, sels, slots);
      if stop {
        closing := AllStreamsDrained(state);
      }
      PumpedIgnoresClosing(before, begun, state, env.now, sends, picks, sels, slots, closing);
      state := state.(sendClosed := closing);
      CallTookSlots(id, begun, state, env.now, sends, picks, sels, slots);
      if pacing.PerClientPps? {
        taken := taken[id := taken[id] + slots];
      }
      states, clock := states[id := state], env.now;
    }

    /** The locked part of OnConnected: a fresh state with one stream per profile; in
        per-client mode its first send is staggered. Connections come in the order of their
        ids. */
    method OnConnected(env: Environment) returns (id: nat)
      requires Valid() && |states| < options.clientCount
      modifies this`states, this`echoes, this`starts, this`taken, env
      ensures Valid() && id == |old(states)| && |states| == id + 1 && states[..id] == old(states)
      ensures old(Balanced(totals, echoes)) ==> Balanced(totals, echoes)
      ensures taken == old(taken) + [[]]
      ensures !states[id].sendClosed && states[id].nextOrdinal == 0
      ensures forall s | 0 <= s < |profiles| :: states[id].streams[s] == StreamState(Counters(0, 0), [], 0.0)
      ensures pacing.PerClientPps? && ShouldSend(id) ==>
                states[id].nextSendTime
                == if activeSendConnectionCount <= 1 then env.now as real
                   else env.now as real + Distribution.Phase(id, activeSendConnectionCount, interval, serverCount,
                       sendServerIndex)
      ensures !(pacing.PerClientPps? && ShouldSend(id)) ==> states[id].nextSendTime == 0.0
    {
      hide ClocksRan, Balanced, Wide;
      id := |states|;
      var first := 0.0;
      if pacing.PerClientPps? && ShouldSend(id) {
        var now := env.NowNs();
        first := Distribution.InitialPerClientSendTime(id, activeSendConnectionCount, interval, serverCount,
            sendServerIndex, now as real);
        if activeSendConnectionCount > 1 {
          Distribution.PhaseIsNonNegative(id, activeSendConnectionCount, interval, serverCount, sendServerIndex);
        }
      }
      var streams := seq(|profiles|, _ => StreamState(Counters(0, 0), [], 0.0));
      ClocksJoinedBy(interval, starts, taken, states, clock, ConnectionState(streams, first, 0, false));
      states := states + [ConnectionState(streams, first, 0, false)];
      starts, taken := starts + [first], taken + [[]];
      ConnectingKeepsBalance(totals, echoes);
      echoes := echoes + [Zeros(|profiles|)];
    }

    /** Whether the pacer may try a connection now. */
    method MaySendPacedMessage(id: nat, now: nat) returns (may: bool)
      requires Valid() && now > 0
      modifies this`states
      ensures Valid() && |states| == |old(states)|
      ensures forall other | 0 <= other < |states| ::
                other != id || !pacing.PerClientPps? ==> states[other] == old(states)[other]
      ensures id < |states| ==> states[id] == old(states)[id].(nextSendTime := states[id].nextSendTime)
      ensures !pacing.PerClientPps? ==> may
      ensures pacing.PerClientPps? ==>
                may == (id < |states| && !states[id].sendClosed && ShouldSend(id)
                        && Due(old(states)[id].nextSendTime, now as real))
      ensures id < |states| && states[id].nextSendTime != old(states)[id].nextSendTime ==>
                old(states)[id].nextSendTime == 0.0 && states[id].nextSendTime == now as real
    {
      hide Configured, ClockKept, ClocksRan;
      if !pacing.PerClientPps? {
        return true;
      }
      if id >= |states| {
        return false;
      }
      var state := states[id];
      if state.sendClosed || !ShouldSend(id) {
        return false;
      }
      if state.nextSendTime == 0.0 {
        state := state.(nextSendTime := now as real);
        ClocksStart(interval, starts, taken, states, clock, id, state);
        states := states[id := state];
      }
      return state.nextSendTime <= now as real;
    }

    /** At time `now` there was nothing the connection could send. */
    ghost predicate Idle(id: nat, state: ConnectionState, now: nat)
      requires Configured() && |state.streams| == |profiles| && state.nextOrdinal < |profiles|
    {
      !ShouldSend(id) || state.sendClosed || NothingDue(state, now)
    }

    lemma NothingDueThen(state: ConnectionState, started: ConnectionState, now: nat, later: nat)
      requires |state.streams| == |profiles| && state.nextOrdinal < |profiles| && now <= later
      requires started == state.(nextSendTime := started.nextSendTime)
      requires pacing.PerClientPps? ==> Due(started.nextSendTime, now as real)
      requires pacing.PerClientPps? || started == state
      requires NothingDue(started, later)
      ensures NothingDue(state, now)
    {
      hide SkippedBefore;
      NothingDueEarlier(started, now, later);
      assert ScheduleOf(started, now) == ScheduleOf(state, now);
    }

    lemma NotDueIsNothingDue(state: ConnectionState, now: nat)
      requires |state.streams| == |profiles| && state.nextOrdinal < |profiles|
      ensures pacing.PerClientPps? && !Due(state.nextSendTime, now as real) ==> NothingDue(state, now)
    {
      hide SkippedBefore;
    }

    lemma StartedIsDue(state: ConnectionState, started: ConnectionState, now: nat)
      requires started == state.(nextSendTime := started.nextSendTime)
      requires started.nextSendTime != state.nextSendTime ==>
                 state.nextSendTime == 0.0 && started.nextSendTime == now as real
      ensures Due(state.nextSendTime, now as real) ==> Due(started.nextSendTime, now as real)
    {
    }

    /** An open connection that sends and whose own slot, if it has one, is due. */
    predicate MaySend(id: nat, state: ConnectionState, now: nat)
      requires Configured()
    {
      ShouldSend(id) && !state.sendClosed && (pacing.PerClientPps? ==> Due(state.nextSendTime, now as real))
    }

    /** A call that has built one message has served one stream. */
    lemma PumpedOne(before: ConnectionState, begun: nat, state: ConnectionState, now: nat,
                    sends: seq<Send>, picks: seq<Pick>, sels: seq<Selection>, slots: seq<Slot>)
      requires ValidProfiles(profiles) && |before.streams| == |profiles| && before.nextOrdinal < |profiles|
      requires Pumped(before, begun, state, now, sends, picks, sels, slots) && |sends| == 1
      ensures ServedOne(profiles, before, begun, state, now, sends[0])
    {
      hide FreeSpace, ClockRan, SkippedBefore, Eligible, BuildFrame, WindowOpen, Distance, Wrap, ServedTime;
      var pick, sel := picks[0], sels[0];
      var o, c0 := pick.ordinal, CountersOf(before.streams);
      var x := before.streams[o];
      assert picks == [] + [pick] && picks[..0] == [];
      SkippedMeanwhile(profiles, ScheduleOf(before, begun), sel.pre, Distance(before.nextOrdinal, o, |profiles|));
      assert c0[o] == x.counters;
      EligibleWithRoom(profiles[o], sel.pre.lanes[o], LaneOf(x), sel.at);
      assert sends[0].data == BuildFrame(profiles[o], x.counters, pick.builtAt);
      forall s | 0 <= s < |profiles|
        ensures state.streams[s] == if s != o then before.streams[s] else
                  x.(counters := CountBuilt(x.counters), nextSendTime := ServedTime(profiles[o], LaneOf(x), sel.at))
      {
        assert state.streams[s].counters == CountersOf(state.streams)[s];
        assert before.streams[s].counters == c0[s];
        assert ScheduleOf(state, now).lanes[s].nextSendTime == sel.post.lanes[s].nextSendTime;
        assert ScheduleOf(before, begun).lanes[s].nextSendTime == sel.pre.lanes[s].nextSendTime;
      }
      assert ServedAt(profiles[o], before.streams, begun, state.streams, now, o, sel.at);
    }

    lemma PumpedNone(before: ConnectionState, begun: nat, state: ConnectionState, now: nat,
                     sends: seq<Send>, picks: seq<Pick>, sels: seq<Selection>, slots: seq<Slot>)
      requires ValidProfiles(profiles) && |before.streams| == |profiles| && before.nextOrdinal < |profiles|
      requires Pumped(before, begun, state, now, sends, picks, sels, slots) && sends == []
      ensures state.streams == before.streams && state.nextOrdinal == before.nextOrdinal
    {
      hide FreeSpace, ClockRan, Built, ValidPicks;
      forall s | 0 <= s < |profiles|
        ensures state.streams[s] == before.streams[s]
      {
        assert state.streams[s].counters == CountersOf(state.streams)[s];
        assert before.streams[s].counters == CountersOf(before.streams)[s];
        assert ScheduleOf(state, now).lanes[s].nextSendTime == ScheduleOf(before, begun).lanes[s].nextSendTime;
      }
    }

    lemma SameServed(state: ConnectionState, started: ConnectionState, begun: nat, after: ConnectionState, now: nat,
                     send: Send)
      requires started == state.(nextSendTime := started.nextSendTime)
      requires ServedOne(profiles, started, begun, after, now, send)
      ensures ServedOne(profiles, state, begun, after, now, send)
    {
      hide SkippedBefore, ServedAt, WindowOpen, BuildFrame, Distance, Wrap;
      assert ScheduleOf(started, begun) == ScheduleOf(state, begun);
    }

    lemma CallServed(state: ConnectionState, started: ConnectionState, begun: nat, later: nat, after: ConnectionState,
                     now: nat, sends: seq<Send>, picks: seq<Pick>, sels: seq<Selection>, slots: seq<Slot>)
      requires ValidProfiles(profiles) && |state.streams| == |profiles| && state.nextOrdinal < |profiles|
      requires started == state.(nextSendTime := started.nextSendTime) && begun <= later && |sends| <= 1
      requires Pumped(started, later, after, now, sends, picks, sels, slots)
      ensures |sends| == |picks| && ValidPicks(profiles, CountersOf(state.streams), picks)
      ensures sends == Built(profiles, CountersOf(state.streams), picks)
      ensures CountersOf(after.streams) == AfterPicks(CountersOf(state.streams), picks)
      ensures sends != [] ==> ServedOne(profiles, state, begun, after, now, sends[0])
      ensures sends == [] ==> after.streams == state.streams && after.nextOrdinal == state.nextOrdinal
    {
      hide FreeSpace, ClockRan, Built, ValidPicks, AfterPicks, Leads, ServedOne;
      if sends == [] {
        PumpedNone(started, later, after, now, sends, picks, sels, slots);
      } else {
        PumpedOne(started, later, after, now, sends, picks, sels, slots);
        SameServed(state, started, later, after, now, sends[0]);
        ServedOneWider(profiles, state, later, after, now, sends[0], begun, now);
      }
    }

    /** The pacer's attempt on one connection, with the reading `now` of its pass: at most
        one message, and none only if there was nothing to send. */
    method TryConnection(id: nat, now: nat, env: Environment)
      returns (sends: seq<Send>, closing: bool, ghost picks: seq<Pick>)
      requires Valid() && id < |states| && 0 < now <= env.now && clock <= env.now
      modifies this`states, this`taken, this`clock, env
      ensures Valid() && |states| == |old(states)| && clock <= env.now
      ensures |taken| == |old(taken)| == |states| && forall o | 0 <= o < |taken| && o != id :: taken[o] == old(taken)[o]
      ensures old(taken)[id] <= taken[id]
      ensures pacing.PerClientPps? ==>
                |taken[id]| - |old(taken)[id]| == 1 || (sends == [] && |taken[id]| == |old(taken)[id]|)
      ensures env.now >= old(env.now) && (old(env.stopSending) ==> env.stopSending)
      ensures forall other | 0 <= other < |states| && other != id :: states[other] == old(states)[other]
      // the message is the next one of the stream whose turn it is, and nothing else moves
      ensures |old(states)[id].streams| == |profiles| && old(states)[id].nextOrdinal < |profiles|
      ensures ValidProfiles(profiles) && |sends| == |picks| <= 1
      ensures ValidPicks(profiles, CountersOf(old(states)[id].streams), picks)
      ensures sends == Built(profiles, CountersOf(old(states)[id].streams), picks)
      ensures CountersOf(states[id].streams) == AfterPicks(CountersOf(old(states)[id].streams), picks)
      ensures sends != [] ==> ServedOne(profiles, old(states)[id], now, states[id], env.now, sends[0])
      ensures sends == [] ==>
                states[id].streams == old(states)[id].streams && states[id].nextOrdinal == old(states)[id].nextOrdinal
      ensures sends == [] && !env.stopSending ==> Idle(id, old(states)[id], now)
      ensures sends != [] ==> MaySend(id, old(states)[id], now)
      ensures states[id].sendClosed <==> old(states)[id].sendClosed || closing
      ensures closing ==> env.stopSending && AllDrained(CountersOf(states[id].streams))
    {
      hide Pumped, FreeSpace, Built, ValidPicks, AfterPicks, AllDrained, Configured, ClockKept, NothingDue, Due,
          ClockRan, SlotsKept, ServedOne;
      SlotsMatchStates();
      sends, closing, picks := [], false, [];
      ghost var state := states[id];
      NoPicks(profiles, CountersOf(state.streams));
      var may := MaySendPacedMessage(id, now);
      if !may {
        NotDueIsNothingDue(state, now);
        return;
      }
      ghost var started, later := states[id], env.now;
      StartedIsDue(state, started, now);
      ghost var sels, slots, some;
      sends, closing, some, sels, slots := PumpSends(id, 1, env);
      if !state.sendClosed {
        picks := some;
        CallServed(state, started, now, later, states[id], env.now, sends, some, sels, slots);
      }
      if sends == [] && !env.stopSending && ShouldSend(id) && !state.sendClosed {
        NothingDueThen(state, started, now, later);
      }
    }

    /** One look of the pacer at the global clock, whose slot is taken if a message has left. */
    method LookAtGlobalClock(now: nat, used: bool)
      requires Valid() && pacing.TotalPps? && globalNextSendTime > 0.0 && now > 0
      requires used ==> Due(globalNextSendTime, now as real)
      requires looks != [] ==> looks[|looks| - 1].time <= now as real
      modifies this`globalNextSendTime, this`looks
      ensures Valid() && looks == old(looks) + [Look(now as real, used)]
    {
      hide Configured, SlotsKept, Monotone, AfterLooks, OnlyDueUsed;
      LookExtends(0.0, interval, looks, Look(now as real, used));
      OneMoreUsed(0.0, interval, looks, Look(now as real, used));
      looks := looks + [Look(now as real, used)];
      if used {
        globalNextSendTime := globalNextSendTime + interval;
        if globalNextSendTime + (interval * 4.0) < now as real {
          globalNextSendTime := now as real;
        }
      }
    }

    /** The head of the pacer loop: in total-rate mode the global clock starts now. */
    method StartPacing(env: Environment)
      requires Valid() && env.now > 0 && looks == []
      modifies this`globalNextSendTime, this`looks, env
      ensures Valid() && env.now >= old(env.now)
      ensures looks == if pacing.TotalPps? then [Look(env.now as real, false)] else []
      ensures pacing.TotalPps? ==> globalNextSendTime == env.now as real > 0.0
    {
      hide Configured, SlotsKept, OnlyDueUsed;
      if pacing.TotalPps? && globalNextSendTime == 0.0 {
        var now := env.NowNs();
        LookExtends(0.0, interval, looks, Look(now as real, false));
        OneMoreUsed(0.0, interval, looks, Look(now as real, false));
        assert [] + [Look(now as real, false)] == [Look(now as real, false)];
        globalNextSendTime := now as real;
        looks := looks + [Look(now as real, false)];
      }
    }

    /** The connections served in a pass, in rotating order from the pointer on. */
    ghost predicate InTurn(start: nat, n: nat, sent: seq<(nat, Send)>, attempt: nat) {
      && (sent != [] ==> start < n)
      && (forall i | 0 <= i < |sent| :: sent[i].0 < n && Distance(start, sent[i].0, n) < attempt)
      && (forall i, j | 0 <= i < j < |sent| :: Distance(start, sent[i].0, n) < Distance(start, sent[j].0, n))
    }

    /** What the first `tried` attempts of a pass have done to the connections: the rest are
        untouched; until the stop flag was seen, who was not served had nothing to send; who
        was served was due; and `closing` lists who has been closed. */
    ghost predicate Tried(start: nat, begin: seq<ConnectionState>, after: seq<ConnectionState>,
                          sent: seq<(nat, Send)>, closing: seq<nat>, tried: nat, now: nat, stopped: bool)
      requires Configured()
      requires forall id | 0 <= id < |begin| :: |begin[id].streams| == |profiles| && begin[id].nextOrdinal < |profiles|
    {
      && |after| == |begin| && start < |begin|
      && InTurn(start, |begin|, sent, tried)
      && (forall id | 0 <= id < |begin| && Distance(start, id, |begin|) >= tried :: after[id] == begin[id])
      && (!stopped ==> forall id | 0 <= id < |begin| && Distance(start, id, |begin|) < tried && !GotThrough(sent, id) ::
                         Idle(id, begin[id], now))
      && (forall i | 0 <= i < |sent| :: sent[i].0 < |begin| && MaySend(sent[i].0, begin[sent[i].0], now))
      && (forall id | 0 <= id < |begin| :: after[id].sendClosed <==> begin[id].sendClosed || id in closing)
    }

    function ClosingAfter(closing: seq<nat>, id: nat, close: bool): seq<nat> {
      if close then closing + [id] else closing
    }

    lemma TurnPasses(start: nat, n: nat, sent: seq<(nat, Send)>, attempt: nat, later: nat)
      requires InTurn(start, n, sent, attempt) && attempt <= later
      ensures InTurn(start, n, sent, later)
    {
      hide Distance;
    }

    lemma SentGrows(start: nat, n: nat, sent: seq<(nat, Send)>, attempt: nat, id: nat, send: Send)
      requires start < n && id < n && Distance(start, id, n) == attempt && InTurn(start, n, sent, attempt)
      ensures InTurn(start, n, sent + [(id, send)], attempt + 1)
      ensures forall other :: GotThrough(sent + [(id, send)], other) <==> GotThrough(sent, other) || other == id
    {
      hide Distance;
      var longer := sent + [(id, send)];
      assert longer[|sent|].0 == id;
      forall other
        ensures GotThrough(longer, other) <==> GotThrough(sent, other) || other == id
      {
        if GotThrough(sent, other) {
          var i :| 0 <= i < |sent| && sent[i].0 == other;
          assert longer[i].0 == other;
        }
      }
    }

    /** Whoever was not served had nothing to send. */
    ghost predicate OthersIdle(begin: seq<ConnectionState>, sent: seq<(nat, Send)>, now: nat)
      requires Configured()
      requires forall id | 0 <= id < |begin| :: |begin[id].streams| == |profiles| && begin[id].nextOrdinal < |profiles|
    {
      forall id | 0 <= id < |begin| && !GotThrough(sent, id) :: Idle(id, begin[id], now)
    }

    /** Whoever is nearer to the pointer than the first one served had nothing to send. */
    ghost predicate NearerIdle(start: nat, begin: seq<ConnectionState>, sent: seq<(nat, Send)>, now: nat)
      requires Configured()
      requires forall id | 0 <= id < |begin| :: |begin[id].streams| == |profiles| && begin[id].nextOrdinal < |profiles|
    {
      && sent != [] && start < |begin| && sent[0].0 < |begin|
      && forall id | 0 <= id < |begin| && Distance(start, id, |begin|) < Distance(start, sent[0].0, |begin|) ::
           Idle(id, begin[id], now)
    }

    lemma TriedOneMore(start: nat, begin: seq<ConnectionState>, after: seq<ConnectionState>,
                       sent: seq<(nat, Send)>, closing: seq<nat>, tried: nat, now: nat, stopped: bool,
                       id: nat, after': seq<ConnectionState>, sends: seq<Send>, close: bool, stopped': bool)
      requires Configured()
      requires forall o | 0 <= o < |begin| :: |begin[o].streams| == |profiles| && begin[o].nextOrdinal < |profiles|
      requires Tried(start, begin, after, sent, closing, tried, now, stopped) && tried < |begin|
      requires id < |begin| && Distance(start, id, |begin|) == tried
      requires forall o | 0 <= o < |begin| && o != id :: Distance(start, o, |begin|) != tried
      requires |after'| == |after| && (forall o | 0 <= o < |after| && o != id :: after'[o] == after[o])
      requires sends == [] && !stopped' ==> Idle(id, begin[id], now)
      requires sends != [] ==> MaySend(id, begin[id], now)
      requires (after'[id].sendClosed <==> after[id].sendClosed || close) && (stopped ==> stopped')
      ensures Tried(start, begin, after', SentAfter(sent, id, sends), ClosingAfter(closing, id, close), tried + 1,
          now, stopped')
    {
      hide Configured, Idle, MaySend, Distance, InTurn, GotThrough;
      var n := |begin|;
      if sends == [] {
        TurnPasses(start, n, sent, tried, tried + 1);
      } else {
        SentGrows(start, n, sent, tried, id, sends[0]);
      }
    }

    lemma NobodyElse(begin: seq<ConnectionState>, now: nat)
      requires Configured()
      requires forall id | 0 <= id < |begin| :: |begin[id].streams| == |profiles| && begin[id].nextOrdinal < |profiles|
      ensures begin == [] ==> OthersIdle(begin, [], now)
    {
      hide Configured;
    }

    lemma NobodyServed(start: nat, n: nat, attempt: nat)
      requires start < n
      ensures InTurn(start, n, [], attempt)
    {
    }

    lemma NothingTried(start: nat, begin: seq<ConnectionState>, now: nat, stopped: bool)
      requires Configured() && start < |begin|
      requires forall id | 0 <= id < |begin| :: |begin[id].streams| == |profiles| && begin[id].nextOrdinal < |profiles|
      ensures Tried(start, begin, begin, [], [], 0, now, stopped)
    {
      hide Configured, Idle, MaySend;
      NobodyServed(start, |begin|, 0);
    }

    lemma AllTried(start: nat, begin: seq<ConnectionState>, after: seq<ConnectionState>,
                   sent: seq<(nat, Send)>, closing: seq<nat>, tried: nat, now: nat, stopped: bool)
      requires Configured()
      requires forall id | 0 <= id < |begin| :: |begin[id].streams| == |profiles| && begin[id].nextOrdinal < |profiles|
      requires Tried(start, begin, after, sent, closing, tried, now, stopped) && tried <= |begin|
      ensures InTurn(start, |begin|, sent, |begin|)
      ensures forall i | 0 <= i < |sent| :: sent[i].0 < |begin| && MaySend(sent[i].0, begin[sent[i].0], now)
      ensures forall id | 0 <= id < |begin| :: after[id].sendClosed <==> begin[id].sendClosed || id in closing
      ensures !stopped && tried == |begin| ==> OthersIdle(begin, sent, now)
      ensures !stopped && |sent| == 1 && sent[0].0 < |begin| && tried == Distance(start, sent[0].0, |begin|) + 1 ==>
                NearerIdle(start, begin, sent, now)
    {
      hide Configured, Idle, MaySend, InTurn, Distance;
      TurnPasses(start, |begin|, sent, tried, |begin|);
    }

    lemma NoSlotsYet(taken: seq<seq<Slot>>)
      ensures TookSlots(taken, taken, [])
    {
    }

    /** What the first `tried` attempts of a pass have taken, in per-client mode. */
    ghost predicate SlotsTried(start: nat, before: seq<seq<Slot>>, after: seq<seq<Slot>>, sent: seq<(nat, Send)>,
                               tried: nat)
    {
      && |after| == |before| && start < |before|
      && (pacing.PerClientPps? ==>
            && TookSlots(before, after, sent)
            && forall id | 0 <= id < |before| && Distance(start, id, |before|) >= tried :: after[id] == before[id])
    }

    lemma NoSlotsTried(start: nat, taken: seq<seq<Slot>>)
      requires start < |taken|
      ensures SlotsTried(start, taken, taken, [], 0)
    {
      NoSlotsYet(taken);
    }

    lemma TookMore(start: nat, before: seq<seq<Slot>>, mid: seq<seq<Slot>>, after: seq<seq<Slot>>,
                   sent: seq<(nat, Send)>, tried: nat, id: nat, sends: seq<Send>)
      requires SlotsTried(start, before, mid, sent, tried) && |after| == |mid| && id < |mid| && !GotThrough(sent, id)
      requires Distance(start, id, |mid|) == tried
      requires forall o | 0 <= o < |mid| && o != id :: after[o] == mid[o] && Distance(start, o, |mid|) != tried
      requires pacing.PerClientPps? ==>
                 && mid[id] <= after[id]
                 && (|after[id]| - |mid[id]| == 1 || (sends == [] && |after[id]| == |mid[id]|))
      ensures SlotsTried(start, before, after, SentAfter(sent, id, sends), tried + 1)
    {
      hide Distance;
      var longer := SentAfter(sent, id, sends);
      if pacing.PerClientPps? {
        forall i | 0 <= i < |longer|
          ensures longer[i].0 < |before| && |after[longer[i].0]| == |before[longer[i].0]| + 1
        {
          if i < |sent| {
            assert sent[i].0 != id;
          }
        }
      }
    }

    lemma SlotsOfPass(start: nat, before: seq<seq<Slot>>, after: seq<seq<Slot>>, sent: seq<(nat, Send)>, tried: nat)
      requires SlotsTried(start, before, after, sent, tried)
      ensures pacing.PerClientPps? ==> TookSlots(before, after, sent)
    {
      hide TookSlots;
    }

    lemma StillUntouched(start: nat, begin: seq<ConnectionState>, after: seq<ConnectionState>,
                         sent: seq<(nat, Send)>, closing: seq<nat>, tried: nat, now: nat, stopped: bool, id: nat)
      requires Configured() && id < |begin|
      requires forall o | 0 <= o < |begin| :: |begin[o].streams| == |profiles| && begin[o].nextOrdinal < |profiles|
      requires Tried(start, begin, after, sent, closing, tried, now, stopped)
      requires Distance(start, id, |begin|) == tried
      ensures after[id] == begin[id] && !GotThrough(sent, id)
    {
      hide Configured, Idle, MaySend, Distance;
    }

    /** The attempts of one pass: every connection once, except that in total-rate mode the
        first message ends it. */
    method TryEach(start: nat, now: nat, env: Environment)
      returns (sent: seq<(nat, Send)>, closing: seq<nat>, ghost tried: nat)
      requires Valid() && start < |states| && 0 < now <= env.now && clock <= env.now
      modifies this`states, this`taken, this`clock, this`nextPacedConnection, env
      ensures Valid() && env.now >= old(env.now) && clock <= env.now
      ensures SlotsTried(start, old(taken), taken, sent, tried)
      ensures forall id | 0 <= id < |old(states)| ::
                |old(states)[id].streams| == |profiles| && old(states)[id].nextOrdinal < |profiles|
      ensures Tried(start, old(states), states, sent, closing, tried, now, env.stopSending) && tried <= |states|
      ensures nextPacedConnection == if sent == [] then old(nextPacedConnection) else sent[|sent| - 1].0 + 1
      ensures if pacing.TotalPps? && sent != []
              then |sent| == 1 && sent[0].0 < |states| && tried == Distance(start, sent[0].0, |states|) + 1
              else tried == |states|
      ensures Handed(profiles, old(states), states, sent, now, env.now)
    {
      hide AllDrained, Configured, ClockKept, SlotsKept, Distance, Idle, Tried, MaySend, SlotsTried,
          Handed, ServedOne, GotThrough, Built, ValidPicks, AfterPicks;
      NothingHanded(profiles, states, now, env.now);
      assert |taken| == |states| by { SlotsMatchStates(); }
      NoSlotsTried(start, taken);
      sent, closing, tried := [], [], 0;
      ghost var begin := states;
      NothingTried(start, begin, now, env.stopSending);
      for attempt := 0 to |states|
        invariant Valid() && |states| == |begin| && tried == attempt
        invariant env.now >= now && env.now >= old(env.now) && clock <= env.now
        invariant |taken| == |begin| && SlotsTried(start, old(taken), taken, sent, tried)
        invariant forall id | 0 <= id < |begin| ::
                    |begin[id].streams| == |profiles| && begin[id].nextOrdinal < |profiles|
        invariant Tried(start, begin, states, sent, closing, tried, now, env.stopSending)
        invariant nextPacedConnection == if sent == [] then old(nextPacedConnection) else sent[|sent| - 1].0 + 1
        invariant Handed(profiles, begin, states, sent, now, env.now)
        invariant pacing.TotalPps? ==> sent == []
      {
        var id := (start + attempt) % |states|;
        AttemptOf(start, attempt, id, |states|);
        ghost var before, stopped, held, begun := states, env.stopSending, taken, env.now;
        StillUntouched(start, begin, states, sent, closing, tried, now, stopped, id);
        var sends, close;
        ghost var picks;
        sends, close, picks := TryConnection(id, now, env);
        HandedOneMore(profiles, begin, before, sent, now, begun, id, states, sends, env.now);
        TriedOneMore(start, begin, before, sent, closing, tried, now, stopped, id, states, sends, close,
            env.stopSending);
        TookMore(start, old(taken), held, taken, sent, tried, id, sends);
        closing, tried := ClosingAfter(closing, id, close), attempt + 1;
        sent := SentAfter(sent, id, sends);
        if |sends| > 0 {
          nextPacedConnection := id + 1;
          if pacing.TotalPps? {
            return;
          }
        }
      }
    }

    /** One pass of the pacer over all connections, once the stop flag has been seen clear.
        In total-rate mode it is one look at the global clock, which takes its slot exactly
        when a message leaves, and ends the pass; otherwise every connection gets its
        attempt. A connection that was tried and not served had nothing to send. */
    method PacerPass(env: Environment)
      returns (sent: seq<(nat, Send)>, closing: seq<nat>, ghost at: nat)
      requires Valid() && env.now > 0 && clock <= env.now && paced
      requires pacing.TotalPps? ==> globalNextSendTime > 0.0
      requires looks != [] ==> looks[|looks| - 1].time <= env.now as real
      modifies this`states, this`taken, this`clock, this`globalNextSendTime, this`nextPacedConnection, this`looks, env
      ensures Valid() && |states| == |old(states)| && old(env.now) <= at <= env.now && clock <= env.now
      ensures pacing.PerClientPps? ==> TookSlots(old(taken), taken, sent)
      ensures pacing.TotalPps? ==> |sent| <= 1 && looks == old(looks) + [Look(at as real, sent != [])]
      ensures pacing.TotalPps? && sent != [] ==> Due(old(globalNextSendTime), at as real)
      ensures !pacing.TotalPps? ==> looks == old(looks) && globalNextSendTime == old(globalNextSendTime)
      ensures |states| > 0 ==> InTurn(old(nextPacedConnection) % |states|, |states|, sent, |states|)
      ensures nextPacedConnection == if sent == [] then old(nextPacedConnection) else sent[|sent| - 1].0 + 1
      ensures forall id | 0 <= id < |states| ::
                |old(states)[id].streams| == |profiles| && old(states)[id].nextOrdinal < |profiles|
      ensures !env.stopSending && (pacing.TotalPps? ==> sent == [] && Due(old(globalNextSendTime), at as real)) ==>
                OthersIdle(old(states), sent, at)
      // in total-rate mode the connections nearer to the pointer than the one served had nothing to send
      ensures pacing.TotalPps? && sent != [] && !env.stopSending ==>
                |states| > 0 && NearerIdle(old(nextPacedConnection) % |states|, old(states), sent, at)
      // every message is the next one of the stream whose turn it is on its own connection
      ensures Handed(profiles, old(states), states, sent, at, env.now)
      ensures forall i | 0 <= i < |sent| :: sent[i].0 < |states| && MaySend(sent[i].0, old(states)[sent[i].0], at)
      ensures forall id | 0 <= id < |states| :: states[id].sendClosed <==> old(states)[id].sendClosed || id in closing
    {
      hide AllDrained, Configured, NothingDue, Distance, Idle, InTurn, GotThrough, Tried, MaySend, ClockKept, SlotsKept,
          TookSlots, SlotsTried, Handed, OthersIdle, NearerIdle;
      NoSlotsYet(taken);
      sent, closing := [], [];
      var now := env.NowNs();
      at := now;
      NothingHanded(profiles, states, now, env.now);
      if |states| > 0 {
        NobodyServed(nextPacedConnection % |states|, |states|, |states|);
      }
      if pacing.TotalPps? && globalNextSendTime > now as real {
        LookAtGlobalClock(now, false);
        return;
      }
      NobodyElse(states, now);
      if |states| > 0 {
        ghost var begin, start, tried := states, nextPacedConnection % |states|, 0;
        sent, closing, tried := TryEach(nextPacedConnection % |states|, now, env);
        AllTried(start, begin, states, sent, closing, tried, now, env.stopSending);
        SlotsOfPass(start, old(taken), taken, sent, tried);
      }
      if pacing.TotalPps? {
        LookAtGlobalClock(now, sent != []);
      }
    }

    lemma PumpedNothingBuilt(before: ConnectionState, begun: nat, state: ConnectionState, now: nat,
                             sends: seq<Send>, picks: seq<Pick>, sels: seq<Selection>, slots: seq<Slot>)
      requires ValidProfiles(profiles) && |before.streams| == |profiles|
      requires Pumped(before, begun, state, now, sends, picks, sels, slots) && sends == []
      ensures CountersOf(state.streams) == CountersOf(before.streams) && state.nextOrdinal == before.nextOrdinal
      ensures !pacing.PerClientPps? ==> state.nextSendTime == before.nextSendTime
    {
      hide FreeSpace, ClockRan, Built, ValidPicks;
    }

    /** RequestStopSending's loop, and the pacer's once the stop flag is set: PumpSends with
        a limit of zero on every connection. Nothing is built; exactly the connections in
        `closing` are closed by it, among them every one found drained. */
    method PumpEach(env: Environment) returns (closing: seq<nat>)
      requires Valid() && env.now > 0 && clock <= env.now
      modifies this`states, this`taken, this`clock, env
      ensures Valid() && clock <= env.now && |states| == |old(states)| && (old(env.stopSending) ==> env.stopSending)
      ensures forall i, j | 0 <= i < j < |closing| :: closing[i] < closing[j] < |states|
      ensures forall id | 0 <= id < |states| :: CountersOf(states[id].streams) == CountersOf(old(states)[id].streams)
      ensures forall id | 0 <= id < |states| :: states[id].sendClosed <==> old(states)[id].sendClosed || id in closing
      ensures forall i | 0 <= i < |closing| :: closing[i] < |states| && !old(states)[closing[i]].sendClosed
                                               && AllDrained(CountersOf(states[closing[i]].streams))
      ensures old(env.stopSending) ==>
                forall id | 0 <= id < |states| && AllDrained(CountersOf(states[id].streams)) :: states[id].sendClosed
    {
      hide Pumped, FreeSpace, Built, AllDrained, Configured, ClockKept, SlotsKept, NothingDue;
      closing := [];
      for id := 0 to |states|
        invariant Valid() && |states| == |old(states)| && clock <= env.now && env.now > 0
            && (old(env.stopSending) ==> env.stopSending)
        invariant forall i, j | 0 <= i < j < |closing| :: closing[i] < closing[j]
        invariant forall i | 0 <= i < |closing| ::
                    closing[i] < id && !old(states)[closing[i]].sendClosed
                        && AllDrained(CountersOf(states[closing[i]].streams))
        invariant forall o | 0 <= o < |states| ::
                    && CountersOf(states[o].streams) == CountersOf(old(states)[o].streams)
                    && (states[o].sendClosed <==> old(states)[o].sendClosed || o in closing)
                    && (o >= id ==> states[o] == old(states)[o])
                    && (o < id && old(env.stopSending) && AllDrained(CountersOf(states[o].streams)) ==>
                        states[o].sendClosed)
      {
        ghost var before, begun := states[id], env.now;
        var sends, close;
        ghost var picks, sels, slots;
        sends, close, picks, sels, slots := PumpSends(id, 0, env);
        if !before.sendClosed {
          PumpedNothingBuilt(before, begun, states[id], env.now, sends, picks, sels, slots);
        }
        if close {
          closing := closing + [id];
        }
      }
    }

    /** RequestStopSending: raises the flag, then gives every connection its PumpSends. */
    method RequestStopSending(env: Environment) returns (closing: seq<nat>)
      requires Valid() && env.now > 0 && clock <= env.now
      modifies this`states, this`taken, this`clock, env
      ensures Valid() && clock <= env.now && |states| == |old(states)| && env.stopSending
      ensures forall id | 0 <= id < |states| :: CountersOf(states[id].streams) == CountersOf(old(states)[id].streams)
      ensures forall id | 0 <= id < |states| :: states[id].sendClosed <==> old(states)[id].sendClosed || id in closing
      ensures forall id | 0 <= id < |states| && AllDrained(CountersOf(states[id].streams)) :: states[id].sendClosed
    {
      env.RaiseStop();
      closing := PumpEach(env);
    }
  }
}
