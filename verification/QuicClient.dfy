/** Sending on one connection of the QUIC client. PumpSends holds the connection's lock, but
    each stream has a lock of its own, so between any two looks at a stream its callbacks
    may count echoes, report the start or report the close. */
module QuicClient {
  import opened Wire
  import opened Reassembly
  import opened Transport
  import opened Window
  import opened Pacing
  import opened Rotation
  import opened Sums
  import opened Configuration
  import opened QuicStreams
  import opened QuicTurns
  import C = QuicClosing
  import Distribution
  import L = LoadClient

  function LastSentAt(messages: seq<Message>, at: real): seq<Message> {
    if messages == [] then [] else messages[|messages| - 1 := SentAt(at)]
  }

  lemma LastSlotIsPast(start: real, interval: real, slots: seq<Slot>, next: real, now: real)
    requires ClockRan(start, interval, slots, next, now) && slots != []
    ensures slots[|slots| - 1].time <= now
  {
  }

  function Reals(instants: seq<nat>): (r: seq<real>)
    ensures |r| == |instants|
  {
    seq(|instants|, i requires 0 <= i < |instants| => instants[i] as real)
  }

  /** Each message carries the time at which it is handed over. */
  ghost predicate Dispatched(offered: seq<Send>, instants: seq<nat>) {
    && |instants| == |offered|
    && forall i | 0 <= i < |offered| ::
         |offered[i].data| >= HEADER_SIZE && Stamp(offered[i].data, instants[i]) == offered[i].data
  }

  lemma DispatchOne(offered: seq<Send>, instants: seq<nat>, send: Send, sequence: nat, size: nat, sentAt: nat)
    requires Dispatched(offered, instants) && size >= HEADER_SIZE && send.data == Frame(sequence, size, sentAt)
    ensures Dispatched(offered + [send], instants + [sentAt])
    ensures Reals(instants + [sentAt]) == Reals(instants) + [sentAt as real]
  {
    hide Frame, Stamp;
    StampFrame(sequence, size, sentAt, sentAt);
  }

  lemma NoInstants()
    ensures Instants([]) == [] && Instants([NoMessage]) == []
  {
    assert [NoMessage][..0] == [];
  }

  lemma OneInstant(at: real)
    ensures Instants([SentAt(at)]) == [at]
  {
    assert [SentAt(at)][..0] == [];
  }

  lemma NothingAdded(instants: seq<real>)
    ensures instants + [] == instants
  {
  }

  lemma InstantsSnoc(messages: seq<Message>, last: Message)
    ensures Instants(messages + [last]) == Instants(messages) + if last.SentAt? then [last.time] else []
  {
    assert (messages + [last])[..|messages|] == messages;
  }

  lemma {:induction false} InstantsJoin(a: seq<Message>, b: seq<Message>)
    ensures Instants(a + b) == Instants(a) + Instants(b)
  {
    hide Instants;
    if b == [] {
      NoInstants();
      assert a + b == a;
    } else {
      var front, last := b[..|b| - 1], b[|b| - 1];
      var tail: seq<real> := if last.SentAt? then [last.time] else [];
      InstantsJoin(a, front);
      InstantsSnoc(front, last);
      InstantsSnoc(a + front, last);
      assert b == front + [last] && a + b == (a + front) + [last];
      assert (Instants(a) + Instants(front)) + tail == Instants(a) + (Instants(front) + tail);
    }
  }

  /** The frames offered on each stream carry its sequence numbers from `first` on, in order
      and without a gap, and they are all that was built. */
  ghost predicate InOrder(profiles: seq<Profile>, first: seq<nat>, built: seq<nat>, offered: seq<Send>)
    requires ValidProfiles(profiles) && |first| == |built| == |profiles|
  {
    forall s | 0 <= s < |profiles| ::
      && built[s] == first[s] + |DataFor(offered, s)|
      && Numbered(DataFor(offered, s), first[s], profiles[s].messageSize)
  }

  /** Nothing is offered on a stream that has been shut down, or that has no name. */
  ghost predicate OnOpenStreams(profiles: seq<Profile>, streams: seq<QuicStream>, offered: seq<Send>)
    requires |profiles| == |streams|
  {
    forall i | 0 <= i < |offered| ::
      && offered[i].stream < |streams| && !streams[offered[i].stream].shutdownStarted
      && profiles[offered[i].stream].name != ""
  }

  /** What one call gives to StreamSend: each stream's next frames, on open streams, carrying
      the times at which they are handed over. */
  ghost predicate Offers(profiles: seq<Profile>, first: seq<nat>, start: seq<QuicStream>, built: seq<nat>,
                         offered: seq<Send>, instants: seq<nat>)
  {
    && ValidProfiles(profiles) && |first| == |built| == |start| == |profiles|
    && InOrder(profiles, first, built, offered) && OnOpenStreams(profiles, start, offered)
    && Dispatched(offered, instants)
  }

  /** Every stream that was usable at the start, and is not closed yet, has been given all
      the window it had then. */
  ghost predicate Filled(profiles: seq<Profile>, start: seq<QuicStream>, echoedAtStart: seq<nat>,
                         streams: seq<QuicStream>, built: seq<nat>)
  {
    && |start| == |echoedAtStart| == |streams| == |built| == |profiles|
    && forall s | 0 <= s < |profiles| && Usable(profiles[s], start[s]) && profiles[s].sendPps == 0
         && !streams[s].closed ::
         built[s] - echoedAtStart[s] >= profiles[s].maxInflight
  }

  lemma FilledStays(profiles: seq<Profile>, start: seq<QuicStream>, echoedAtStart: seq<nat>,
                    mid: seq<QuicStream>, streams: seq<QuicStream>, built: seq<nat>)
    requires |start| == |echoedAtStart| == |mid| == |streams| == |built| == |profiles|
    requires Filled(profiles, start, echoedAtStart, mid, built)
    requires forall s | 0 <= s < |profiles| :: mid[s].closed ==> streams[s].closed
    ensures Filled(profiles, start, echoedAtStart, streams, built)
  {
    hide Usable;
  }

  lemma NothingBuilt(profiles: seq<Profile>, first: seq<nat>, start: seq<QuicStream>, built: seq<nat>,
                     instants: seq<nat>)
    requires Offers(profiles, first, start, built, [], instants)
    ensures built == first
  {
  }

  lemma SettledThroughout(profiles: seq<Profile>, a: seq<QuicStream>, before: seq<nat>,
                          b: seq<QuicStream>, after: seq<nat>, built: seq<nat>)
    requires ValidProfiles(profiles) && |a| == |built| == |profiles| && MovedAll(a, before, b, after)
    requires forall s | 0 <= s < |profiles| ::
               && Tracks(profiles[s], a[s].counters, built[s], before[s], [])
               && Tracks(profiles[s], b[s].counters, built[s], after[s], [])
    ensures forall s | 0 <= s < |profiles| && Settled(a[s]) :: Settled(b[s])
  {
    hide Tracks, Settled;
    forall s | 0 <= s < |profiles| && Settled(a[s])
      ensures Settled(b[s])
    {
      SettledStays(profiles[s], a[s], b[s], built[s], before[s], after[s]);
    }
  }

  lemma OfferOne(profiles: seq<Profile>, first: seq<nat>, earlier: seq<nat>, built: seq<nat>,
                 offered: seq<Send>, send: Send, sentAt: nat)
    requires ValidProfiles(profiles) && |first| == |earlier| == |built| == |profiles| && send.stream < |profiles|
    requires built == Raise(earlier, send.stream, 1)
    requires send.data == Frame(earlier[send.stream], profiles[send.stream].messageSize, sentAt)
    requires InOrder(profiles, first, earlier, offered)
    ensures InOrder(profiles, first, built, offered + [send])
  {
    hide Numbered, Frame, Stamp;
    forall s | 0 <= s < |profiles|
      ensures built[s] == first[s] + |DataFor(offered + [send], s)|
      ensures Numbered(DataFor(offered + [send], s), first[s], profiles[s].messageSize)
    {
      DataForAppend(offered, [send], s);
      assert DataFor([send], s) == if send.stream == s then [send.data] else [];
      if send.stream == s {
        StampFrame(earlier[s], profiles[s].messageSize, sentAt, 0);
        NumberedSnoc(DataFor(offered, s), first[s], profiles[s].messageSize, send.data);
      } else {
        assert DataFor(offered, s) + [] == DataFor(offered, s);
      }
    }
  }

  lemma OneMoreOffer(profiles: seq<Profile>, first: seq<nat>, start: seq<QuicStream>, earlier: seq<nat>,
                     built: seq<nat>, offered: seq<Send>, instants: seq<nat>, send: Send, sentAt: nat)
    requires Offers(profiles, first, start, earlier, offered, instants) && send.stream < |profiles|
    requires |earlier| == |built| == |profiles| && built == Raise(earlier, send.stream, 1)
    requires send.data == Frame(earlier[send.stream], profiles[send.stream].messageSize, sentAt)
    requires !start[send.stream].shutdownStarted && profiles[send.stream].name != ""
    ensures Offers(profiles, first, start, built, offered + [send], instants + [sentAt])
    ensures Reals(instants + [sentAt]) == Reals(instants) + [sentAt as real]
  {
    hide InOrder, Dispatched, Frame, Stamp;
    OfferOne(profiles, first, earlier, built, offered, send, sentAt);
    DispatchOne(offered, instants, send, earlier[send.stream], profiles[send.stream].messageSize, sentAt);
  }

  /** A scan that found nothing has left no window space that was there at the start. */
  lemma NothingReadyMeansFilled(profiles: seq<Profile>, start: seq<QuicStream>, echoedAtStart: seq<nat>,
                                mid: seq<QuicStream>, midEchoed: seq<nat>,
                                streams: seq<QuicStream>, echoed: seq<nat>, built: seq<nat>, now: nat)
    requires ValidProfiles(profiles) && |mid| == |built| == |profiles|
    requires MovedAll(start, echoedAtStart, mid, midEchoed) && MovedAll(mid, midEchoed, streams, echoed)
    requires forall s | 0 <= s < |profiles| ::
               Tracks(profiles[s], mid[s].counters, built[s], midEchoed[s], [])
    requires NoneReady(profiles, mid, now, streams)
    ensures Filled(profiles, start, echoedAtStart, streams, built)
  {
    hide Numbered;
    forall s | 0 <= s < |profiles| && Usable(profiles[s], start[s]) && profiles[s].sendPps == 0 && !streams[s].closed
      ensures built[s] - echoedAtStart[s] >= profiles[s].maxInflight
    {
      TrackedWindow(profiles[s], mid[s].counters, built[s], midEchoed[s], []);
    }
  }

  lemma NothingOffered(profiles: seq<Profile>, streams: seq<QuicStream>, built: seq<nat>)
    requires ValidProfiles(profiles) && |built| == |profiles| == |streams|
    ensures Offers(profiles, built, streams, built, [], []) && Instants([]) == Reals([])
  {
  }

  lemma WrapIsRemainder(x: nat, n: nat)
    requires n > 0
    ensures Wrap(x, n) == x % n < n
  {
  }

  lemma DueByThen(next: real, earlier: nat, now: nat)
    requires earlier <= now
    ensures Due(next, earlier as real) ==> Due(next, now as real)
  {
  }

  /** Every message goes out on the stream whose turn it is. */
  predicate InTurn(turns: seq<Turn>, offered: seq<Send>) {
    |turns| == |offered| && forall i | 0 <= i < |turns| :: turns[i].served == offered[i].stream
  }

  lemma NothingTaken(profiles: seq<Profile>, a: Moment, b: Moment)
    requires Formed(profiles, a) && Formed(profiles, b) && b.pointer == a.pointer && a.now <= b.now
    requires forall s | 0 <= s < |profiles| && profiles[s].name != "" :: Waits(a.streams[s], b.streams[s])
    ensures Passes(profiles, a, b)
  {
  }

  class QuicConnection {
    const options: Options
    const index: nat
    const profiles: seq<Profile>
    const paced: bool
    const interval: real
    const shouldSend: bool

    var streams: seq<QuicStream>
    var nextSendTime: real
    var nextOrdinal: nat
    /** Messages built and echoes counted per stream, never wrapped. */
    ghost var built: seq<nat>
    ghost var echoed: seq<nat>
    /** Every slot the connection has taken, what became of it, and the last time the clock
        was read. */
    ghost var slots: seq<Slot>
    ghost var messages: seq<Message>
    ghost var clock: nat
    /** What has happened to the connection as a run of the shutdown machine. */
    ghost var run: C.Run

    /** The constants are what the options prescribe. */
    predicate Configured() {
      && ValidOptions(options) && index < options.clientCount && profiles == options.profiles
      && paced == Paced(options) && shouldSend == Sends(options, index)
      && interval == QuicInterval(Mode(options), options, ActiveCount(options))
    }

    predicate KeepsPace() {
      paced && interval > 0.0
    }

    /** All slots ever taken form one chain that ends at the present clock, and every message
        had a slot of its own. */
    ghost predicate ClockKept()
      reads this`nextSendTime, this`slots, this`messages, this`clock
    {
      && nextSendTime >= 0.0
      && if KeepsPace()
         then ClockRan(0.0, interval, slots, nextSendTime, clock as real) && HandedOver(slots, messages, clock as real)
         else slots == [] && messages == [] && (!paced ==> nextSendTime == 0.0)
    }

    ghost function Setup(): C.Config {
      C.Config(profiles, paced)
    }

    ghost function Machine(): C.Closing
      reads this`run
    {
      C.Last(run)
    }

    /** The streams are those of the machine. */
    ghost predicate Recorded()
      reads this`run, this`streams
    {
      C.IsRun(Setup(), run) && Machine().streams == Untimed(streams)
    }

    /** The window invariant: on every stream the counters stand for the true counts, whose
        difference is within the window. */
    ghost predicate Valid()
      reads this
    {
      && Configured() && ValidProfiles(profiles) && |streams| == |built| == |echoed| == |profiles|
      && profiles != [] && nextOrdinal < |profiles|
      && ClockKept() && (!shouldSend ==> slots == []) && Recorded()
      && forall s | 0 <= s < |profiles| :: Tracks(profiles[s], streams[s].counters, built[s], echoed[s], [])
    }

    /** The streams, the pointer and the time, as the order of serving depends on them. */
    ghost function Present(now: nat): Moment
      reads this`streams, this`nextOrdinal
    {
      Moment(streams, nextOrdinal, now)
    }

    lemma Shape()
      requires Valid()
      ensures ValidProfiles(profiles) && |streams| == |built| == |echoed| == |profiles| && nextOrdinal < |profiles|
      ensures forall s | 0 <= s < |profiles| :: Tracks(profiles[s], streams[s].counters, built[s], echoed[s], [])
    {
      hide Tracks, ClockKept, Configured, Recorded;
    }

    lemma SameLength()
      requires Recorded()
      ensures |Machine().streams| == |streams|
    {
    }

    /** The machine's decision looks at the same as AllStreamsDrained. */
    lemma SameSettled()
      requires Recorded()
      ensures C.AllSettled(Machine()) <==> forall s | 0 <= s < |streams| :: Settled(streams[s])
    {
      hide C.IsRun;
      forall s | 0 <= s < |streams|
        ensures Settled(Machine().streams[s]) == Settled(streams[s])
      {
      }
    }

    /** A connection whose streams have been opened and not yet reported as started. */
    constructor (options: Options, index: nat)
      requires ValidOptions(options) && index < options.clientCount
      ensures Valid() && this.options == options && this.index == index
      ensures clock == 0 && slots == [] && nextOrdinal == 0 && run.events == []
      ensures forall s | 0 <= s < |profiles| ::
                streams[s] == QuicStream(Counters(0, 0), 0.0, false, false, false) && built[s] == echoed[s] == 0
    {
      this.options, this.index := options, index;
      profiles := options.profiles;
      var streamPacing := Configuration.HasStreamProfilePacing(options.profiles);
      paced := Mode(options) != Unlimited || streamPacing;
      var count := Distribution.ActiveSendConnectionCount(options.clientCount, options.serverCount,
          options.sendServerIndex);
      interval := QuicInterval(Mode(options), options, count);
      shouldSend := Sends(options, index);
      streams := seq(|options.profiles|, _ => QuicStream(Counters(0, 0), 0.0, false, false, false));
      nextSendTime, nextOrdinal := 0.0, 0;
      built, echoed := Zeros(|options.profiles|), Zeros(|options.profiles|);
      slots, messages, clock := [], [], 0;
      run := C.History([C.Fresh(|options.profiles|)], []);
      new;
      ClockStands(0.0, interval, 0.0);
      forall s | 0 <= s < |profiles|
        ensures Tracks(profiles[s], streams[s].counters, built[s], echoed[s], [])
      {
        NothingTracked(profiles[s]);
      }
    }

    ghost predicate AllMovedOn(a: seq<QuicStream>, before: seq<nat>)
      reads this
    {
      MovedAll(a, before, streams, echoed)
    }

    /** One more event for the machine. */
    ghost method Happens(e: C.Event)
      requires C.IsRun(Setup(), run) && C.Possible(Setup(), Machine(), e)
      modifies this`run
      ensures C.IsRun(Setup(), run) && C.Extends(old(run), run) && Machine() == C.Step(Setup(), old(Machine()), e)
    {
      run := C.Then(Setup(), run, e);
    }

    /** An event that leaves the streams alone. */
    ghost method CallGoesOn(e: C.Event)
      requires Valid() && C.Possible(Setup(), Machine(), e)
      requires e.RaiseStop? || e.Enter? || e.Look? || e.Refuse? || e.Decline? || e.Decide? || e.Finish?
      modifies this`run
      ensures Valid() && C.Extends(old(run), run) && Machine() == C.Step(Setup(), old(Machine()), e)
    {
      hide Tracks, Configured, ClockKept, C.IsRun, C.Extends;
      Happens(e);
    }

    ghost predicate TimesKept(a: seq<QuicStream>)
      reads this`streams
    {
      |streams| == |a| && forall s | 0 <= s < |a| :: streams[s].nextSendTime == a[s].nextSendTime
    }

    /** START_COMPLETE, under the stream's lock. */
    method StreamStarts(s: nat)
      requires Valid() && s < |streams| && !streams[s].started && !streams[s].closed
      modifies this`streams, this`run
      ensures Valid() && AllMovedOn(old(streams), echoed) && TimesKept(old(streams))
      ensures C.Onward(old(run), run, old(Machine()).progress) && (!paced ==> Machine().owed > 0)
    {
      hide Tracks, Outstanding, Configured, ClockKept, C.IsRun, C.Extends;
      Happens(C.Start(s));
      var x := streams[s].(started := true);
      UntimedSet(streams, s, x);
      streams := streams[s := x];
    }

    /** RECEIVE, under the stream's lock. */
    method EchoesArrive(s: nat, more: nat)
      requires Valid() && s < |streams| && !streams[s].closed && more <= Outstanding(streams[s].counters)
      requires Outstanding(streams[s].counters) > 0 || streams[s].shutdownStarted
      modifies this`streams, this`echoed, this`run
      ensures Valid() && AllMovedOn(old(streams), old(echoed)) && TimesKept(old(streams))
      ensures echoed[s] == old(echoed[s]) + more
      ensures C.Onward(old(run), run, old(Machine()).progress) && (!paced ==> Machine().owed > 0)
    {
      hide Tracks, Outstanding, CountEchoed, Configured, ClockKept, C.IsRun, C.Extends;
      Happens(C.Echo(s, more));
      var x := streams[s].(counters := CountEchoed(streams[s].counters, more));
      EchoesKeepTracking(profiles[s], streams[s].counters, built[s], echoed[s], more);
      UntimedSet(streams, s, x);
      echoed := Raise(echoed, s, more);
      streams := streams[s := x];
    }

    /** SHUTDOWN_COMPLETE, under the stream's lock. */
    method StreamCloses(s: nat)
      requires Valid() && s < |streams| && !streams[s].closed
      modifies this`streams, this`run
      ensures Valid() && AllMovedOn(old(streams), echoed) && TimesKept(old(streams))
      ensures C.Onward(old(run), run, old(Machine()).progress)
    {
      hide Tracks, Outstanding, Configured, ClockKept, C.IsRun, C.Extends;
      Happens(C.Close(s));
      var x := streams[s].(closed := true);
      UntimedSet(streams, s, x);
      streams := streams[s := x];
    }

    /** Callbacks on other threads. */
    method Interfere()
      requires Valid()
      modifies this`streams, this`echoed, this`run
      ensures Valid() && AllMovedOn(old(streams), old(echoed)) && TimesKept(old(streams))
      ensures C.Onward(old(run), run, old(Machine()).progress)
    {
      hide Tracks, Outstanding, Configured, ClockKept, Recorded, C.Extends;
      C.ExtendsItself(run);
      for s := 0 to |streams|
        invariant Valid() && AllMovedOn(old(streams), old(echoed)) && TimesKept(old(streams))
        invariant C.Onward(old(run), run, old(Machine()).progress)
      {
        ghost var r := run;
        var more: int, start: bool, close: bool := *, *, *;
        if start && !streams[s].started && !streams[s].closed {
          StreamStarts(s);
          C.OnwardJoins(old(run), r, run, Machine().progress, Machine().progress);
          r := run;
        }
        if 0 <= more <= Outstanding(streams[s].counters) && !streams[s].closed
            && (Outstanding(streams[s].counters) > 0 || streams[s].shutdownStarted) {
          EchoesArrive(s, more);
          C.OnwardJoins(old(run), r, run, Machine().progress, Machine().progress);
          r := run;
        }
        if close && !streams[s].closed {
          StreamCloses(s);
          C.OnwardJoins(old(run), r, run, Machine().progress, Machine().progress);
        }
      }
    }

    /** One candidate of the scan. It is chosen exactly when it is due and has a name; a due
        stream without a name only has its clock advanced. */
    method TryStream(o: nat, env: L.Environment) returns (chosen: bool, ghost at: nat)
      requires Valid() && o < |streams|
      modifies this`streams, this`echoed, this`run, env
      ensures Valid() && AllMovedOn(old(streams), old(echoed))
      ensures C.Onward(old(run), run, old(Machine()).progress)
      ensures at == env.now >= old(env.now) && (old(env.stopSending) ==> env.stopSending)
      ensures forall s | 0 <= s < |streams| && (s != o || (!chosen && profiles[s].name != "")) ::
                streams[s].nextSendTime == old(streams)[s].nextSendTime
      ensures chosen ==>
                && Eligible(profiles[o], Lane(streams[o].counters, old(streams)[o].nextSendTime), at)
                && Usable(profiles[o], streams[o])
                && streams[o].nextSendTime
                   == ServedTime(profiles[o], Lane(streams[o].counters, old(streams)[o].nextSendTime), at)
      ensures !chosen ==> !Ready(profiles[o], old(streams)[o], old(env.now)) || streams[o].closed
    {
      hide Tracks, ServedTime, WindowOpen, Due, Configured, ClockKept, C.IsRun, C.Extends;
      ghost var begun := env.now;
      Interfere();
      var now := env.NowNs();
      at := now;
      var x := streams[o];
      ReadyStays(profiles[o], old(streams)[o], x, built[o], old(echoed)[o], echoed[o], begun, now);
      var due, next := Consider(profiles[o], x, now);
      if due {
        UntimedSet(streams, o, x.(nextSendTime := next));
        streams := streams[o := x.(nextSendTime := next)];
      }
      chosen := due && profiles[o].name != "";
    }

    /** One scan for the next stream to serve, in rotating order. Streams passed over were
        not ready when the scan began, or have been closed since. */
    method SelectStream(env: L.Environment) returns (pick: Option<nat>, ghost at: nat)
      requires Valid()
      modifies this`streams, this`echoed, this`run, this`nextOrdinal, env
      ensures Valid() && AllMovedOn(old(streams), old(echoed))
      ensures C.Onward(old(run), run, old(Machine()).progress)
      ensures env.now >= old(env.now) && (old(env.stopSending) ==> env.stopSending)
      ensures forall s | 0 <= s < |streams| && profiles[s].name != "" && pick != Some(s) ::
                streams[s].nextSendTime == old(streams)[s].nextSendTime
      ensures nextOrdinal == if pick.None? then old(nextOrdinal) else Wrap(pick.value + 1, |streams|)
      ensures pick.None? ==>
                forall o | 0 <= o < |streams| :: !Ready(profiles[o], old(streams)[o], old(env.now)) || streams[o].closed
      ensures pick.Some? ==>
                && pick.value < |streams| && old(env.now) <= at <= env.now
                && Eligible(profiles[pick.value],
                            Lane(streams[pick.value].counters, old(streams)[pick.value].nextSendTime), at)
                && Usable(profiles[pick.value], streams[pick.value])
                && streams[pick.value].nextSendTime
                   == ServedTime(profiles[pick.value],
                                 Lane(streams[pick.value].counters, old(streams)[pick.value].nextSendTime), at)
                && forall o | 0 <= o < |streams|
                     && Distance(old(nextOrdinal), o, |streams|) < Distance(old(nextOrdinal), pick.value, |streams|) ::
                     !Ready(profiles[o], old(streams)[o], old(env.now)) || streams[o].closed
    {
      hide Tracks, Visited, Distance, Wrap, Ready, Eligible, ServedTime, Configured, ClockKept,
          Recorded, C.Extends;
      pick, at := None, env.now;
      C.ExtendsItself(run);
      ghost var begun := env.now;
      for attempt := 0 to |streams|
        invariant Valid() && AllMovedOn(old(streams), old(echoed)) && nextOrdinal == old(nextOrdinal)
        invariant C.Onward(old(run), run, old(Machine()).progress)
        invariant env.now >= begun && (old(env.stopSending) ==> env.stopSending)
        invariant forall s | 0 <= s < |streams|
                    && (profiles[s].name != "" || Distance(nextOrdinal, s, |streams|) >= attempt) ::
                    streams[s].nextSendTime == old(streams)[s].nextSendTime
        invariant forall s | 0 <= s < |streams| && Distance(nextOrdinal, s, |streams|) < attempt ::
                    !Ready(profiles[s], old(streams)[s], begun) || streams[s].closed
      {
        var o := (nextOrdinal + attempt) % |streams|;
        DistanceIsAttempt(nextOrdinal, attempt, |streams|);
        assert o == Visited(nextOrdinal, attempt, |streams|) by { L.ScanOrder(nextOrdinal, attempt, |streams|); }
        ghost var x, echoes, now, r := streams[o], echoed[o], env.now, run;
        ReadyStays(profiles[o], old(streams)[o], x, built[o], old(echoed)[o], echoes, begun, now);
        var chosen;
        chosen, at := TryStream(o, env);
        C.OnwardJoins(old(run), r, run, Machine().progress, Machine().progress);
        forall s | 0 <= s < |streams| && Distance(nextOrdinal, s, |streams|) == attempt
          ensures s == o
        {
          VisitedAtDistance(nextOrdinal, s, |streams|);
        }
        if chosen {
          pick := Some(o);
          nextOrdinal := (o + 1) % |streams|;
          assert nextOrdinal == Wrap(o + 1, |streams|) < |streams| by { WrapIsRemainder(o + 1, |streams|); }
          return;
        }
      }
    }

    lemma ClockKeptLater(later: nat)
      requires Configured() && ClockKept() && clock <= later && KeepsPace()
      ensures ClockRan(0.0, interval, slots, nextSendTime, later as real) && HandedOver(slots, messages, later as real)
    {
      ClockRanLater(0.0, interval, slots, nextSendTime, clock as real, later as real);
    }

    /** The connection's own slot. */
    method TakeSlot(env: L.Environment) returns (granted: bool)
      requires Valid() && paced && shouldSend && env.now > 0 && clock <= env.now
      modifies this`nextSendTime, this`slots, this`messages, this`clock, env
      ensures Valid() && clock == env.now >= old(env.now) && (old(env.stopSending) ==> env.stopSending)
      ensures granted == Due(old(nextSendTime), clock as real)
      ensures nextSendTime == if interval > 0.0 then AfterLook(old(nextSendTime), interval, Look(clock as real, true))
                              else StartedAt(old(nextSendTime), clock as real)
      ensures KeepsPace() && granted ==>
                && slots == old(slots) + [Slot(clock as real, StartedAt(old(nextSendTime), clock as real),
                    nextSendTime)]
                && messages == old(messages) + [NoMessage]
      ensures !(KeepsPace() && granted) ==> slots == old(slots) && messages == old(messages)
    {
      hide Tracks, ClockRan, HandedOver, Configured, Recorded;
      ghost var before := env.now;
      if KeepsPace() {
        ClockKeptLater(before);
      }
      var now := env.NowNs();
      if nextSendTime == 0.0 {
        nextSendTime := now as real;
      }
      granted := nextSendTime <= now as real;
      if granted {
        if interval > 0.0 {
          ghost var slot := Slot(now as real, nextSendTime, Advance(nextSendTime, interval, now as real));
          NewSlot(slots, messages, before as real, slot);
          slots, messages := slots + [slot], messages + [NoMessage];
          nextSendTime := nextSendTime + interval;
          if nextSendTime + (interval * 4.0) < now as real {
            nextSendTime := now as real;
          }
        }
      } else if KeepsPace() {
        HandedOverLater(slots, messages, before as real, now as real);
      }
      clock := now;
      if interval > 0.0 {
        ClockLook(0.0, interval, old(slots), old(nextSendTime), before as real, now as real);
        assert old(slots) + [] == old(slots);
      }
    }

    /** Every message takes one slot, and a call at most one without a message, which it does
        not when it has reached its limit. */
    predicate SlotsFit(offered: nat, slots: nat, limit: nat) {
      if KeepsPace() then offered <= slots <= offered + 1 && (offered == limit ==> slots == offered) else slots == 0
    }

    /** The last slot taken gets its message. */
    ghost method Deliver(at: nat)
      requires Configured() && ClockKept() && clock <= at && (KeepsPace() ==> slots != [])
      modifies this`messages, this`clock
      ensures ClockKept() && clock == at
      ensures messages == if KeepsPace() then LastSentAt(old(messages), at as real) else old(messages)
    {
      hide ClockRan, SlotChain;
      if KeepsPace() {
        ClockKeptLater(at);
        LastSlotIsPast(0.0, interval, slots, nextSendTime, clock as real);
        NewMessage(slots, messages, clock as real, at as real);
        messages := LastSentAt(messages, at as real);
      }
      clock := at;
    }

    /** The message of a stream with room, which carries the stream's next sequence number. */
    method BuildMessage(s: nat, env: L.Environment) returns (data: Bytes, ghost sentAt: nat)
      requires Valid() && s < |streams| && Machine().progress.Going?
      requires streams[s].started && !streams[s].shutdownStarted && WindowOpen(profiles[s], streams[s].counters)
      modifies this`streams, this`built, this`run, env
      ensures Valid() && AllMovedOn(old(streams), echoed) && TimesKept(old(streams))
      ensures C.Onward(old(run), run, C.Built)
      ensures sentAt == env.now >= old(env.now) && (old(env.stopSending) ==> env.stopSending)
      ensures built == Raise(old(built), s, 1) && data == Frame(old(built)[s], profiles[s].messageSize, sentAt)
    {
      hide Tracks, ClockKept, Configured, WindowOpen, CountBuilt, Frame, C.IsRun, C.Extends;
      Happens(C.Build(s));
      var x, p := streams[s], profiles[s];
      RoomForOne(p, x.counters, built[s], echoed[s]);
      UntimedSet(streams, s, x.(counters := CountBuilt(x.counters)));
      streams := streams[s := x.(counters := CountBuilt(x.counters))];
      built := Raise(built, s, 1);
      var now := env.NowNs();
      sentAt := now;
      FrameOfWrappedSequence(old(built)[s], p.messageSize, now);
      data := Frame(x.counters.nextSequence, p.messageSize, now);
    }

    /** Every stream on which nothing has been built has waited. */
    lemma StillWaiting(begin: seq<QuicStream>, before: seq<nat>, first: seq<nat>, served: Option<nat>)
      requires Valid() && |begin| == |before| == |first| && AllMovedOn(begin, before)
      requires forall s | 0 <= s < |streams| ::
                 Tracks(profiles[s], begin[s].counters, first[s], before[s], [])
      requires forall s | 0 <= s < |streams| && profiles[s].name != "" && served != Some(s) ::
                 built[s] == first[s] && streams[s].nextSendTime == begin[s].nextSendTime
      ensures forall s | 0 <= s < |streams| && profiles[s].name != "" && served != Some(s) ::
                Waits(begin[s], streams[s])
    {
      hide Tracks, Waits, Configured, ClockKept, Recorded;
      forall s | 0 <= s < |streams| && profiles[s].name != "" && served != Some(s)
        ensures Waits(begin[s], streams[s])
      {
        NothingSent(profiles[s], begin[s], streams[s], built[s], before[s], echoed[s]);
      }
    }

    /** Selects a stream and builds its message. */
    method SendNext(env: L.Environment) returns (send: Option<Send>, ghost sentAt: nat, ghost turn: Turn)
      requires Valid() && Machine().progress.Going?
      modifies this`streams, this`echoed, this`built, this`run, this`nextOrdinal, env
      ensures Valid() && AllMovedOn(old(streams), old(echoed))
      ensures C.Onward(old(run), run, if send.Some? then C.Built else C.Going)
      ensures env.now >= old(env.now) && (old(env.stopSending) ==> env.stopSending)
      ensures send.None? ==>
                && built == old(built) && NoneReady(profiles, old(streams), old(env.now), streams)
                && Passes(profiles, old(Present(env.now)), Present(env.now))
      ensures send.Some? ==>
                && turn.pre == old(Present(env.now)) && turn.post == Present(env.now) && Serves(profiles, turn)
                && turn.served == send.value.stream
      ensures send.Some? ==>
                && var s := send.value.stream;
                && s < |streams| && !old(streams)[s].shutdownStarted && profiles[s].name != ""
                && built == Raise(old(built), s, 1)
                && send.value.data == Frame(old(built)[s], profiles[s].messageSize, sentAt)
                && old(env.now) <= sentAt == env.now
    {
      hide Tracks, ClockKept, Configured, Recorded, Ready, Eligible, ServedTime, Distance, Wrap, Frame, WindowOpen,
          C.Extends, Serves, Passes, Waits;
      Shape();
      ghost var begin, begun, pointer := streams, env.now, nextOrdinal;
      send, sentAt, turn := None, 0, Turn(Present(env.now), 0, 0, Present(env.now));
      var pick;
      ghost var at;
      pick, at := SelectStream(env);
      if pick.Some? {
        var s := pick.value;
        ghost var r, chosen, echoes := run, streams[s], echoed[s];
        Interfere();
        C.OnwardJoins(old(run), r, run, C.Going, C.Going);
        r := run;
        RoomStays(profiles[s], chosen, streams[s], built[s], echoes, echoed[s], old(streams)[s].nextSendTime, at);
        var data;
        data, sentAt := BuildMessage(s, env);
        C.OnwardJoins(old(run), r, run, C.Going, C.Built);
        send := Some(Send(s, data));
        turn := Turn(Moment(begin, pointer, begun), s, at, Present(env.now));
        StillWaiting(begin, old(echoed), old(built), Some(s));
        TurnTaken(profiles, turn, chosen.counters);
      } else {
        StillWaiting(begin, old(echoed), old(built), None);
        NothingTaken(profiles, Moment(begin, pointer, begun), Present(env.now));
      }
    }

    lemma SlotsMatchMessages()
      requires ClockKept()
      ensures |slots| == |messages|
    {
      hide ClockRan;
    }

    /** One turn of the loop: a slot, a stream, a frame carrying the stream's next sequence
        number and the time it is handed to the transport. */
    method SendOne(env: L.Environment)
      returns (send: Option<Send>, ghost sentAt: nat, ghost more: seq<Message>, ghost turn: Turn)
      requires Valid() && shouldSend && env.now > 0 && clock <= env.now && Machine().progress.Going?
      modifies this, env
      ensures Valid() && AllMovedOn(old(streams), old(echoed)) && clock <= env.now
      ensures C.Onward(old(run), run, if send.Some? then C.Built else C.Going)
      ensures env.now >= old(env.now) && (old(env.stopSending) ==> env.stopSending)
      ensures messages == old(messages) + more && SlotsFit(if send.Some? then 1 else 0, |more|, 1)
      ensures KeepsPace() ==> Instants(more) == if send.Some? then [sentAt as real] else []
      ensures send.None? ==> built == old(built)
      // a turn without a message had no slot due, or no stream ready
      ensures send.None? ==>
                || (paced && !Due(old(nextSendTime), old(env.now) as real))
                || NoneReady(profiles, old(streams), old(env.now), streams)
      // a message goes to the stream whose turn it is
      ensures send.None? ==> Passes(profiles, old(Present(env.now)), Present(env.now))
      ensures send.Some? ==>
                && Passes(profiles, old(Present(env.now)), turn.pre) && Serves(profiles, turn)
                && Passes(profiles, turn.post, Present(env.now)) && turn.served == send.value.stream
      ensures send.Some? ==>
                && var s := send.value.stream;
                && s < |streams| && !old(streams)[s].shutdownStarted && profiles[s].name != ""
                && built == Raise(old(built), s, 1)
                && send.value.data == Frame(old(built)[s], profiles[s].messageSize, sentAt)
                && old(env.now) <= sentAt <= env.now
    {
      hide Tracks, ClockKept, Configured, Ready, Frame, Instants, Recorded, C.Onward, NoneReady, Due,
          Serves, Passes, MovedAll;
      Shape();
      NothingMoves(streams, echoed);
      send, sentAt, more, turn := None, 0, [], Turn(Present(env.now), 0, 0, Present(env.now));
      NoInstants();
      ghost var begun := env.now;
      if paced {
        var granted := TakeSlot(env);
        if !granted {
          DueByThen(old(nextSendTime), begun, clock);
          assert old(messages) + [] == messages;
          C.NothingHappens(run);
          TimeGoesBy(profiles, Moment(streams, nextOrdinal, begun), env.now);
          return;
        }
        more := if KeepsPace() then [NoMessage] else [];
      }
      assert messages == old(messages) + more;
      ghost var scanned := env.now;
      TimeGoesBy(profiles, Moment(streams, nextOrdinal, begun), scanned);
      ghost var scan := Present(scanned);
      send, sentAt, turn := SendNext(env);
      if send.None? {
        NoneReadyEarlier(profiles, old(streams), begun, scanned, streams, streams);
        PassesJoin(profiles, Moment(old(streams), old(nextOrdinal), begun), scan, Present(env.now));
      } else {
        TurnsAreFormed(profiles, turn);
        TimeGoesBy(profiles, turn.post, env.now);
        SlotsMatchMessages();
        Deliver(sentAt);
        if KeepsPace() {
          more := [SentAt(sentAt as real)];
          OneInstant(sentAt as real);
          assert messages == old(messages) + more;
        }
      }
    }

    /** AllStreamsDrained, without the streams' locks. */
    method AllStreamsDrained() returns (drained: bool)
      requires Valid()
      modifies this`streams, this`echoed, this`run
      ensures Valid() && AllMovedOn(old(streams), old(echoed))
      ensures C.Onward(old(run), run, old(Machine()).progress)
      ensures forall s | 0 <= s < |streams| && Settled(old(streams)[s]) :: Settled(streams[s])
      ensures drained ==> forall s | 0 <= s < |streams| :: Settled(streams[s])
      ensures !drained ==> exists s | 0 <= s < |streams| :: !Settled(streams[s]) && !Settled(old(streams)[s])
    {
      hide Tracks, Settled, Configured, ClockKept, Recorded, C.Extends;
      C.ExtendsItself(run);
      for s := 0 to |streams|
        invariant Valid() && AllMovedOn(old(streams), old(echoed))
        invariant C.Onward(old(run), run, old(Machine()).progress)
        invariant forall o | 0 <= o < s :: Settled(streams[o])
        invariant forall o | 0 <= o < |streams| && Settled(old(streams)[o]) :: Settled(streams[o])
      {
        ghost var before, echoes, r := streams, echoed, run;
        Interfere();
        C.OnwardJoins(old(run), r, run, Machine().progress, Machine().progress);
        forall o | 0 <= o < |streams|
          ensures Settled(before[o]) ==> Settled(streams[o])
        {
          SettledStays(profiles[o], before[o], streams[o], built[o], echoes[o], echoed[o]);
        }
        var x := streams[s];
        assert Settled(x) == (x.closed || x.counters.nextSequence == x.counters.echoedMessages) by { SettledMeans(x); }
        if !x.closed && x.counters.nextSequence != x.counters.echoedMessages {
          return false;
        }
      }
      return true;
    }

    /** Exactly the streams listed have been shut down. */
    ghost predicate ShutDownBy(a: seq<QuicStream>, shutdowns: seq<nat>)
      reads this`streams
    {
      && |streams| == |a|
      && forall s | 0 <= s < |streams| ::
           && (s in shutdowns ==> streams[s].started && !a[s].shutdownStarted)
           && (streams[s].shutdownStarted <==> a[s].shutdownStarted || s in shutdowns)
           && (a[s].started ==> streams[s].started) && (a[s].closed ==> streams[s].closed)
           && (Settled(a[s]) ==> Settled(streams[s]))
    }

    method MarkShut(s: nat)
      requires Valid() && s < |streams| && Machine().progress == C.Shutting(s)
      modifies this`streams, this`run
      ensures Valid() && C.Onward(old(run), run, C.Shutting(s + 1))
      ensures streams == if Unshut(old(streams)[s]) then old(streams)[s := old(streams)[s].(shutdownStarted := true)]
                         else old(streams)
      ensures forall o | 0 <= o < |streams| :: Settled(streams[o]) == Settled(old(streams)[o])
    {
      hide Tracks, Settled, Configured, ClockKept, C.IsRun, C.Extends;
      Happens(C.ShutNext);
      var x := streams[s];
      if !x.shutdownStarted && !x.closed && x.started {
        SettledMeans(x);
        SettledMeans(x.(shutdownStarted := true));
        UntimedSet(streams, s, x.(shutdownStarted := true));
        streams := streams[s := x.(shutdownStarted := true)];
      } else {
        UntimedSet(streams, s, x);
      }
    }

    /** One step of the shutdown loop, under the stream's lock. */
    method ShutOne(s: nat) returns (shut: bool)
      requires Valid() && s < |streams| && Machine().progress == C.Shutting(s)
      modifies this`streams, this`echoed, this`run
      ensures Valid() && C.Onward(old(run), run, C.Shutting(s + 1))
      ensures ShutDownBy(old(streams), if shut then [s] else [])
      ensures old(streams)[s].started && !streams[s].closed ==> streams[s].shutdownStarted
    {
      hide Tracks, Settled, Configured, ClockKept, Recorded, C.Extends;
      ghost var before, echoes, r := streams, echoed, run;
      Interfere();
      r := run;
      forall o | 0 <= o < |streams|
        ensures Settled(before[o]) ==> Settled(streams[o])
      {
        SettledStays(profiles[o], before[o], streams[o], built[o], echoes[o], echoed[o]);
      }
      shut := !streams[s].shutdownStarted && !streams[s].closed && streams[s].started;
      MarkShut(s);
      C.OnwardJoins(old(run), r, run, C.Shutting(s), C.Shutting(s + 1));
    }

    /** The graceful shutdown of every stream that is started, open and not shut down yet. */
    method ShutdownStreams() returns (shutdowns: seq<nat>)
      requires Valid() && Machine().progress == C.Shutting(0)
      modifies this`streams, this`echoed, this`run
      ensures Valid() && |streams| == |old(streams)|
      ensures C.Onward(old(run), run, C.Free)
      ensures forall i, j | 0 <= i < j < |shutdowns| :: shutdowns[i] < shutdowns[j]
      ensures ShutDownBy(old(streams), shutdowns)
      ensures forall s | 0 <= s < |streams| && old(streams)[s].started && !streams[s].closed ::
                streams[s].shutdownStarted
      ensures forall i | 0 <= i < |shutdowns| :: shutdowns[i] < |streams|
    {
      hide Tracks, Settled, Configured, ClockKept, Recorded, C.Extends;
      C.ExtendsItself(run);
      shutdowns := [];
      for s := 0 to |streams|
        invariant Valid() && |streams| == |old(streams)| && |shutdowns| <= s
        invariant C.Onward(old(run), run, C.Shutting(s))
        invariant forall i, j | 0 <= i < j < |shutdowns| :: shutdowns[i] < shutdowns[j]
        invariant forall i | 0 <= i < |shutdowns| :: shutdowns[i] < s
        invariant ShutDownBy(old(streams), shutdowns)
        invariant forall o | 0 <= o < |streams| && o < s && old(streams)[o].started && !streams[o].closed ::
                    streams[o].shutdownStarted
      {
        ghost var r := run;
        var shut := ShutOne(s);
        C.OnwardJoins(old(run), r, run, C.Shutting(s), C.Shutting(s + 1));
        if shut {
          shutdowns := shutdowns + [s];
        }
      }
      ghost var r := run;
      SameLength();
      CallGoesOn(C.Finish);
      C.OnwardJoins(old(run), r, run, C.Shutting(|streams|), C.Free);
    }

    /** The loop's look at the stop flag. */
    method NextRound(env: L.Environment) returns (running: bool)
      requires Valid() && (Machine().progress.Entered? || Machine().progress.Built?)
      requires Machine().stop ==> env.stopSending
      modifies this`run, env
      ensures Valid() && C.Onward(old(run), run, if running then C.Going else old(Machine()).progress)
      ensures env.now >= old(env.now) && (old(env.stopSending) ==> env.stopSending)
      ensures running ==> !old(env.stopSending)
      ensures !running ==> env.stopSending
    {
      hide Tracks, ClockKept, Configured, Recorded, C.Extends;
      C.ExtendsItself(run);
      var stop := env.StopRequested();
      running := !stop;
      if running {
        CallGoesOn(C.Look);
      }
    }

    /** The sending part of PumpSends. */
    method SendMany(maxMessages: nat, env: L.Environment)
      returns (offered: seq<Send>, count: nat, refused: bool, ghost instants: seq<nat>, ghost more: seq<Message>,
               ghost turns: seq<Turn>)
      requires Valid() && env.now > 0 && clock <= env.now
      requires Machine().progress.Entered? && (Machine().stop ==> env.stopSending)
      modifies this, env
      ensures Valid() && |old(streams)| == |old(echoed)| == |old(built)| == |profiles|
          && AllMovedOn(old(streams), old(echoed))
      ensures C.Onward(old(run), run, Machine().progress)
      ensures if refused then Machine().progress.Free? else C.BeforeDecision(Machine())
      ensures env.now >= old(env.now) && (old(env.stopSending) ==> env.stopSending) && clock <= env.now
      ensures |offered| == count + (if refused then 1 else 0) <= maxMessages
      ensures !shouldSend || old(env.stopSending) ==> offered == []
      ensures Offers(profiles, old(built), old(streams), built, offered, instants)
      ensures TurnsLead(profiles, old(Present(env.now)), turns, Present(env.now)) && InTurn(turns, offered)
      ensures messages == old(messages) + more && SlotsFit(|offered|, |more|, maxMessages)
      ensures KeepsPace() ==> Instants(more) == Reals(instants)
      ensures !paced && shouldSend && !refused && count < maxMessages && !env.stopSending ==>
                Filled(profiles, old(streams), old(echoed), streams, built)
      ensures shouldSend && maxMessages > 0 && offered == [] && !env.stopSending ==>
                || (paced && !Due(old(nextSendTime), old(env.now) as real))
                || NoneReady(profiles, old(streams), old(env.now), streams)
    {
      hide Tracks, Ready, Usable, Settled, ClockKept, Configured, Offers, Filled, Frame,
          Instants, Reals, C.Extends, Valid, MovedAll, NoneReady, Due,
          TurnsLead, Passes, Serves;
      ghost var begun := env.now;
      Shape();
      NothingMoves(streams, echoed);
      ghost var first := Present(begun);
      NoTurnsYet(profiles, first);
      offered, count, refused, instants, more, turns := [], 0, false, [], [], [];
      NothingOffered(profiles, streams, built);
      var running := shouldSend && count < maxMessages;
      C.NothingHappens(run);
      if running {
        running := NextRound(env);
      }
      TurnsGoOn(profiles, first, turns, first, env.now);
      assert old(messages) + [] == messages;
      while running
        invariant Valid() && |streams| == |old(streams)| && AllMovedOn(old(streams), old(echoed)) && clock <= env.now
        invariant env.now >= old(env.now) && (old(env.stopSending) ==> env.stopSending)
        invariant C.Onward(old(run), run, Machine().progress)
        invariant if running then Machine().progress.Going? else C.BeforeDecision(Machine())
        invariant |offered| == count <= maxMessages && !refused
        invariant running ==> shouldSend && count < maxMessages && !old(env.stopSending)
        invariant !shouldSend || old(env.stopSending) ==> offered == []
        invariant Offers(profiles, old(built), old(streams), built, offered, instants)
        invariant TurnsLead(profiles, first, turns, Present(env.now)) && InTurn(turns, offered)
        invariant messages == old(messages) + more && SlotsFit(|offered|, |more|, maxMessages)
        invariant running && KeepsPace() ==> |more| == |offered|
        invariant KeepsPace() ==> Instants(more) == Reals(instants)
        invariant !running && !paced && shouldSend && count < maxMessages && !env.stopSending ==>
                    Filled(profiles, old(streams), old(echoed), streams, built)
        invariant running && offered == [] ==> streams == old(streams) && nextSendTime == old(nextSendTime)
        invariant !running && shouldSend && maxMessages > 0 && offered == [] && !env.stopSending ==>
                    || (paced && !Due(old(nextSendTime), old(env.now) as real))
                    || NoneReady(profiles, old(streams), old(env.now), streams)
        decreases running, maxMessages - count
      {
        ghost var mid, midEchoed, midBuilt, scanned, r := streams, echoed, built, env.now, run;
        var send;
        ghost var sentAt, one, turn;
        ghost var head := Present(env.now);
        Shape();
        send, sentAt, one, turn := SendOne(env);
        Shape();
        MovedAllJoins(old(streams), old(echoed), mid, midEchoed, streams, echoed);
        OpenBefore(old(streams), old(echoed), mid, midEchoed);
        C.OnwardJoins(old(run), r, run, C.Going, Machine().progress);
        r := run;
        InstantsJoin(more, one);
        assert old(messages) + more + one == old(messages) + (more + one);
        more := more + one;
        if send.None? {
          assert KeepsPace() ==> Instants(more) == Reals(instants) by { NothingAdded(Reals(instants)); }
          running := false;
          TurnsLeadLater(profiles, first, turns, head, Present(env.now));
          if offered == [] {
            DueByThen(old(nextSendTime), begun, scanned);
            if NoneReady(profiles, old(streams), scanned, streams) {
              NoneReadyEarlier(profiles, old(streams), begun, scanned, streams, streams);
            }
          }
          if !paced {
            NothingReadyMeansFilled(profiles, old(streams), old(echoed), mid, midEchoed, streams, echoed, built,
                scanned);
          }
        } else {
          OneMoreOffer(profiles, old(built), old(streams), midBuilt, built, offered, instants, send.value, sentAt);
          OneTurnMore(profiles, first, turns, head, turn, Present(env.now));
          turns := turns + [turn];
          offered, instants := offered + [send.value], instants + [sentAt];
          ghost var done := Present(env.now);
          var accepted: bool := *;
          if !accepted {
            refused := true;
            CallGoesOn(C.Refuse);
            C.OnwardJoins(old(run), r, run, C.Built, C.Free);
            return;
          }
          count := count + 1;
          running := count < maxMessages;
          if running {
            running := NextRound(env);
            TurnsGoOn(profiles, first, turns, done, env.now);
            C.OnwardJoins(old(run), r, run, C.Built, Machine().progress);
          }
        }
      }
    }

    /** The end of a PumpSends call that has seen the stop flag. */
    method ShutdownIfDrained() returns (shutdowns: seq<nat>)
      requires Valid() && C.BeforeDecision(Machine())
      modifies this`streams, this`echoed, this`run
      ensures Valid() && |streams| == |old(streams)|
      ensures C.Extends(old(run), run) && Machine().progress.Free? && Machine().stop
      ensures forall i, j | 0 <= i < j < |shutdowns| :: shutdowns[i] < shutdowns[j]
      ensures forall i | 0 <= i < |shutdowns| :: shutdowns[i] < |streams|
      ensures ShutDownBy(old(streams), shutdowns)
      ensures shutdowns != [] ==> forall s | 0 <= s < |streams| :: Settled(streams[s])
      ensures (forall s | 0 <= s < |streams| :: Settled(old(streams)[s])) ==>
                forall s | 0 <= s < |streams| && old(streams)[s].started && !streams[s].closed ::
                    streams[s].shutdownStarted
    {
      hide Tracks, Settled, ClockKept, Configured, Recorded, C.Extends;
      shutdowns := [];
      C.ExtendsItself(run);
      if !Machine().stop {
        CallGoesOn(C.RaiseStop);
      }
      ghost var r := run;
      var drained := AllStreamsDrained();
      C.ExtendsJoins(old(run), r, run);
      r := run;
      SameSettled();
      if drained {
        CallGoesOn(C.Decide);
        C.ExtendsJoins(old(run), r, run);
        r := run;
        shutdowns := ShutdownStreams();
        C.ExtendsJoins(old(run), r, run);
      } else {
        CallGoesOn(C.Decline);
        C.ExtendsJoins(old(run), r, run);
      }
    }

    /** The end of a PumpSends call: its decision and what follows. */
    method EndCall(env: L.Environment) returns (shutdowns: seq<nat>)
      requires Valid() && C.BeforeDecision(Machine()) && (Machine().stop ==> env.stopSending)
      modifies this`streams, this`echoed, this`run, env
      ensures Valid() && C.Extends(old(run), run)
      ensures Machine().progress.Free? && (Machine().stop ==> env.stopSending)
      ensures env.now >= old(env.now) && (old(env.stopSending) ==> env.stopSending)
      ensures forall i, j | 0 <= i < j < |shutdowns| :: shutdowns[i] < shutdowns[j]
      ensures ShutDownBy(old(streams), shutdowns)
      ensures shutdowns != [] ==> env.stopSending && forall s | 0 <= s < |streams| :: Settled(streams[s])
      ensures old(env.stopSending) && (forall s | 0 <= s < |streams| :: Settled(old(streams)[s])) ==>
                forall s | 0 <= s < |streams| && old(streams)[s].started && !streams[s].closed ::
                    streams[s].shutdownStarted
      ensures !env.stopSending ==> streams == old(streams)
    {
      hide Settled, C.Extends, Valid;
      shutdowns := [];
      var stop := env.StopRequested();
      if stop {
        shutdowns := ShutdownIfDrained();
      } else {
        CallGoesOn(C.Decline);
      }
    }

    /** PumpSends. `offered` are the messages given to StreamSend, at the times `instants`; a
        refused one ends the call. In paced mode every one of them has its own slot of the
        connection's clock. The call is one a thread owes the connection, made when nobody
        else holds the lock, and it goes through the shutdown machine's steps. */
    method PumpSends(maxMessages: nat, env: L.Environment)
      returns (offered: seq<Send>, count: nat, refused: bool, shutdowns: seq<nat>,
               ghost instants: seq<nat>, ghost more: seq<Message>, ghost turns: seq<Turn>, ghost last: Moment)
      requires Valid() && env.now > 0 && clock <= env.now
      requires Machine().progress.Free? && Machine().owed > 0 && (Machine().stop ==> env.stopSending)
      modifies this, env
      ensures Valid() && |old(streams)| == |old(echoed)| == |old(built)| == |profiles|
      ensures env.now >= old(env.now) && (old(env.stopSending) ==> env.stopSending) && clock <= env.now
      ensures C.Extends(old(run), run) && Machine().progress.Free? && (Machine().stop ==> env.stopSending)
      ensures |offered| == count + (if refused then 1 else 0) <= maxMessages
      ensures !shouldSend || old(env.stopSending) ==> offered == []
      ensures Offers(profiles, old(built), old(streams), built, offered, instants)
      // every message goes out on the stream whose turn it is
      ensures TurnsLead(profiles, old(Present(env.now)), turns, last) && InTurn(turns, offered)
      ensures !env.stopSending ==> last == Present(last.now) && last.now <= env.now
      // the messages handed over are those recorded against the connection's slots
      ensures messages == old(messages) + more && SlotsFit(|offered|, |more|, maxMessages)
      ensures KeepsPace() ==> Instants(more) == Reals(instants)
      // unpaced and unhindered, it fills the windows
      ensures !paced && shouldSend && !refused && count < maxMessages && !env.stopSending ==>
                Filled(profiles, old(streams), old(echoed), streams, built)
      // a call that sends nothing, though it may, had no slot due or no stream ready
      ensures shouldSend && maxMessages > 0 && offered == [] && !env.stopSending ==>
                || (paced && !Due(old(nextSendTime), old(env.now) as real))
                || NoneReady(profiles, old(streams), old(env.now), streams)
      // each stream is shut down at most once, after a stop, with every stream drained or closed
      ensures forall i, j | 0 <= i < j < |shutdowns| :: shutdowns[i] < shutdowns[j]
      ensures forall s | 0 <= s < |streams| ::
                && (s in shutdowns ==> streams[s].started && !old(streams)[s].shutdownStarted)
                && (streams[s].shutdownStarted <==> old(streams)[s].shutdownStarted || s in shutdowns)
      ensures shutdowns != [] ==> env.stopSending && forall s | 0 <= s < |streams| :: Settled(streams[s])
      ensures old(env.stopSending) && (forall s | 0 <= s < |profiles| :: Settled(old(streams)[s])) ==>
                forall s | 0 <= s < |streams| && old(streams)[s].started && !streams[s].closed ::
                    streams[s].shutdownStarted
    {
      hide Tracks, Ready, Usable, Settled, ClockKept, Configured, Offers, Filled, C.Extends,
          C.Onward, Valid, MovedAll, NoneReady, Due,
          TurnsLead;
      Shape();
      shutdowns := [];
      CallGoesOn(C.Enter);
      ghost var r := run;
      offered, count, refused, instants, more, turns := SendMany(maxMessages, env);
      last := Present(env.now);
      C.OnwardExtends(old(run), r, run);
      OpenBefore(old(streams), old(echoed), streams, echoed);
      if refused {
        return;
      }
      ghost var mid := streams;
      Shape();
      r := run;
      if old(env.stopSending) {
        NothingBuilt(profiles, old(built), old(streams), built, instants);
        SettledThroughout(profiles, old(streams), old(echoed), streams, echoed, built);
      }
      shutdowns := EndCall(env);
      C.ExtendsJoins(old(run), r, run);
      Shape();
      if Filled(profiles, old(streams), old(echoed), mid, built) {
        FilledStays(profiles, old(streams), old(echoed), mid, streams, built);
      }
      if NoneReady(profiles, old(streams), old(env.now), mid) {
        NoneReadyEarlier(profiles, old(streams), old(env.now), old(env.now), mid, streams);
      }
    }

    /** A connection of a client without a pacer, stopped and with every stream settled, that
        nobody is about to pump has nothing left to shut down, unless the transport has at some
        point closed the last stream with echoes outstanding while nobody was about to. */
    lemma NothingLeftToShut(s: nat)
      requires Valid() && !paced && s < |streams| && Unshut(streams[s])
      requires Machine().stop && Machine().progress.Free? && Machine().owed == 0
      requires forall o | 0 <= o < |streams| :: Settled(streams[o])
      ensures exists j | 0 <= j < |run.events| :: C.StrandingClose(run.states[j], run.events[j])
    {
      hide Tracks, Configured, ClockKept, C.IsRun, C.StrandingClose, Settled;
      SameSettled();
      assert Unshut(Machine().streams[s]);
      C.StrandedIff(Setup(), run, |run.events|);
    }

    /** Whatever the connection has gone through, k of its messages span at least k - 7 of
        its intervals. */
    lemma MessagesKeepPace(i: nat, j: nat)
      requires Valid() && KeepsPace() && i <= j < |messages| && messages[i].SentAt? && messages[j].SentAt?
      ensures Intervals(j - i + 1 - 7, interval) <= messages[j].time - messages[i].time
    {
      hide Tracks, Configured, Intervals, SlotChain;
      ChainOfClock(0.0, interval, slots, nextSendTime, clock as real);
      MessageBurstBound(slots, messages, clock as real, interval, i, j);
    }
  }
}
