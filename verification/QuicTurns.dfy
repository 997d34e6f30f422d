/** The order in which the QUIC client serves the streams of a connection. Streams may start,
    be closed or be shut down at any time; a stream that stays open is served in its turn, and
    a paced one no faster than its rate. */
module QuicTurns {
  import opened Wire
  import opened Window
  import opened Pacing
  import opened Rotation
  import opened QuicStreams

  datatype Moment = Moment(streams: seq<QuicStream>, pointer: nat, now: nat)

  /** One message: the moments before its scan and after it was built, the stream served and
      the time at which that was found due. */
  datatype Turn = Turn(pre: Moment, served: nat, at: nat, post: Moment)

  predicate Formed(profiles: seq<Profile>, m: Moment) {
    |m.streams| == |profiles| && m.pointer < |profiles|
  }

  /** Flags are only ever set, and the pacing clock stands. */
  predicate Stands(a: QuicStream, b: QuicStream) {
    && (a.started ==> b.started) && (a.closed ==> b.closed) && (a.shutdownStarted ==> b.shutdownStarted)
    && b.nextSendTime == a.nextSendTime
  }

  /** Nothing is sent on a stream meanwhile. */
  predicate Waits(a: QuicStream, b: QuicStream) {
    Stands(a, b) && Outstanding(b.counters) <= Outstanding(a.counters)
  }

  /** Nothing is sent between two moments. Streams without a name are never sent on. */
  ghost predicate Passes(profiles: seq<Profile>, a: Moment, b: Moment) {
    && Formed(profiles, a) && Formed(profiles, b) && b.pointer == a.pointer && a.now <= b.now
    && forall s | 0 <= s < |profiles| && profiles[s].name != "" :: Waits(a.streams[s], b.streams[s])
  }

  /** The clock of a stream after it has been served. */
  function NextTime(p: Profile, x: QuicStream, at: nat): real {
    ServedTime(p, Lane(x.counters, x.nextSendTime), at)
  }

  ghost predicate Serves(profiles: seq<Profile>, t: Turn) {
    var Turn(pre, served, at, post) := t;
    var n := |profiles|;
    && Formed(profiles, pre) && Formed(profiles, post) && served < n && pre.now <= at <= post.now
    && profiles[served].name != "" && post.streams[served].started && !pre.streams[served].shutdownStarted
    && (profiles[served].sendPps > 0 ==> Due(pre.streams[served].nextSendTime, at as real))
    && Stands(pre.streams[served].(nextSendTime := NextTime(profiles[served], pre.streams[served], at)),
              post.streams[served])
    && (forall s | 0 <= s < n && s != served && profiles[s].name != "" :: Waits(pre.streams[s], post.streams[s]))
    && (forall s | 0 <= s < n && Distance(pre.pointer, s, n) < Distance(pre.pointer, served, n) ::
          !Ready(profiles[s], pre.streams[s], pre.now) || post.streams[s].closed)
    && post.pointer == Wrap(served + 1, n)
  }

  /** Turns one after the other, of one call or of many. */
  ghost predicate TurnRun(profiles: seq<Profile>, turns: seq<Turn>) {
    && (forall i | 0 <= i < |turns| :: Serves(profiles, turns[i]))
    && forall i | 0 <= i < |turns| - 1 :: Passes(profiles, turns[i].post, turns[i + 1].pre)
  }

  /** The turns lead from one moment to another. */
  ghost predicate TurnsLead(profiles: seq<Profile>, a: Moment, turns: seq<Turn>, b: Moment) {
    && TurnRun(profiles, turns)
    && if turns == [] then Passes(profiles, a, b)
       else Passes(profiles, a, turns[0].pre) && Passes(profiles, turns[|turns| - 1].post, b)
  }

  lemma PassesJoin(profiles: seq<Profile>, a: Moment, b: Moment, c: Moment)
    requires Passes(profiles, a, b) && Passes(profiles, b, c)
    ensures Passes(profiles, a, c)
  {
    hide Outstanding;
  }

  lemma TimeGoesBy(profiles: seq<Profile>, a: Moment, later: nat)
    requires Formed(profiles, a) && a.now <= later
    ensures Passes(profiles, a, a.(now := later))
  {
  }

  lemma TurnsLeadLater(profiles: seq<Profile>, a: Moment, turns: seq<Turn>, b: Moment, c: Moment)
    requires TurnsLead(profiles, a, turns, b) && Passes(profiles, b, c)
    ensures TurnsLead(profiles, a, turns, c)
  {
    hide Passes, Serves;
    PassesJoin(profiles, if turns == [] then a else turns[|turns| - 1].post, b, c);
  }

  lemma OneTurnMore(profiles: seq<Profile>, a: Moment, turns: seq<Turn>, b: Moment, t: Turn, c: Moment)
    requires TurnsLead(profiles, a, turns, b) && Passes(profiles, b, t.pre) && Serves(profiles, t)
    requires Passes(profiles, t.post, c)
    ensures TurnsLead(profiles, a, turns + [t], c)
  {
    hide Passes, Serves;
    PassesJoin(profiles, if turns == [] then a else turns[|turns| - 1].post, b, t.pre);
  }

  /** Successive calls: turns that lead on from where others have led. */
  lemma TurnsJoin(profiles: seq<Profile>, a: Moment, some: seq<Turn>, b: Moment, more: seq<Turn>, c: Moment)
    requires TurnsLead(profiles, a, some, b) && TurnsLead(profiles, b, more, c)
    ensures TurnsLead(profiles, a, some + more, c)
  {
    hide Passes, Serves;
    if more == [] {
      TurnsLeadLater(profiles, a, some, b, c);
      assert some + more == some;
    } else if some == [] {
      PassesJoin(profiles, a, b, more[0].pre);
      assert some + more == more;
    } else {
      PassesJoin(profiles, some[|some| - 1].post, b, more[0].pre);
      var all := some + more;
      forall i | 0 <= i < |all| - 1
        ensures Passes(profiles, all[i].post, all[i + 1].pre)
      {
        if i >= |some| {
          assert all[i] == more[i - |some|] && all[i + 1] == more[i - |some| + 1];
        }
      }
    }
  }

  /** Between two moments at which the counters are tracked, with nothing built in between. */
  lemma NothingSent(p: Profile, a: QuicStream, b: QuicStream, built: nat, before: nat, after: nat)
    requires ValidProfile(p) && before <= after && SameStream(a, b) && b.nextSendTime == a.nextSendTime
    requires Tracks(p, a.counters, built, before, []) && Tracks(p, b.counters, built, after, [])
    ensures Waits(a, b)
  {
    TrackedWindow(p, a.counters, built, before, []);
    TrackedWindow(p, b.counters, built, after, []);
  }

  /** A scan that found a stream due, followed by building its message, is a turn. */
  lemma TurnTaken(profiles: seq<Profile>, t: Turn, c: Counters)
    requires Formed(profiles, t.pre) && Formed(profiles, t.post) && t.served < |profiles|
    requires t.pre.now <= t.at <= t.post.now && profiles[t.served].name != ""
    requires var p, a, b := profiles[t.served], t.pre.streams[t.served], t.post.streams[t.served];
             && b.started && !a.shutdownStarted && SameStream(a, b) && Eligible(p, Lane(c, a.nextSendTime), t.at)
             && b.nextSendTime == ServedTime(p, Lane(c, a.nextSendTime), t.at)
    requires forall s | 0 <= s < |profiles| && s != t.served && profiles[s].name != "" ::
               Waits(t.pre.streams[s], t.post.streams[s])
    requires forall s | 0 <= s < |profiles|
                 && Distance(t.pre.pointer, s, |profiles|) < Distance(t.pre.pointer, t.served, |profiles|) ::
               !Ready(profiles[s], t.pre.streams[s], t.pre.now) || t.post.streams[s].closed
    requires t.post.pointer == Wrap(t.served + 1, |profiles|)
    ensures Serves(profiles, t)
  {
    hide Outstanding, Ready, Distance, Wrap;
  }

  lemma NoTurnsYet(profiles: seq<Profile>, a: Moment)
    requires Formed(profiles, a)
    ensures TurnsLead(profiles, a, [], a)
  {
    TimeGoesBy(profiles, a, a.now);
  }

  lemma TurnsGoOn(profiles: seq<Profile>, a: Moment, turns: seq<Turn>, b: Moment, later: nat)
    requires TurnsLead(profiles, a, turns, b) && b.now <= later
    ensures TurnsLead(profiles, a, turns, b.(now := later))
  {
    hide Serves;
    assert Formed(profiles, b);
    TimeGoesBy(profiles, b, later);
    TurnsLeadLater(profiles, a, turns, b, b.(now := later));
  }

  // ---------------------------------------------------------------- no starvation

  /** The stream is open: neither closed nor shut down. */
  predicate Open(x: QuicStream) {
    !x.closed && !x.shutdownStarted
  }

  lemma ReadyWaits(p: Profile, a: QuicStream, b: QuicStream, earlier: nat, now: nat)
    requires Ready(p, a, earlier) && Waits(a, b) && Open(b) && earlier <= now
    ensures Ready(p, b, now)
  {
    if p.sendPps > 0 {
      DueStaysDue(a.nextSendTime, earlier, now);
    }
  }

  /** Serving another stream brings the scan closer to an open one that is ready, which stays
      ready. */
  lemma TurnBringsCloser(profiles: seq<Profile>, t: Turn, next: Moment, e: nat)
    requires Serves(profiles, t) && Passes(profiles, t.post, next) && e < |profiles| && e != t.served
    requires Ready(profiles[e], t.pre.streams[e], t.pre.now)
    requires Open(next.streams[e])
    ensures Ready(profiles[e], next.streams[e], next.now)
    ensures Distance(next.pointer, e, |profiles|) < Distance(t.pre.pointer, e, |profiles|)
  {
    hide Distance, Wrap, Outstanding, Due, NextTime, Eligible;
    var a, b, c := t.pre.streams[e], t.post.streams[e], next.streams[e];
    assert Waits(a, b) && Waits(b, c);
    ReadyWaits(profiles[e], a, c, t.pre.now, next.now);
    assert !t.post.streams[e].closed;
    assert Distance(t.pre.pointer, t.served, |profiles|) <= Distance(t.pre.pointer, e, |profiles|);
    DistanceShrinks(t.pre.pointer, t.served, e, |profiles|);
  }

  lemma StaysOpen(profiles: seq<Profile>, a: Moment, t: Turn, e: nat)
    requires Passes(profiles, a, t.pre) && Serves(profiles, t) && e < |profiles| && profiles[e].name != ""
    requires Open(t.post.streams[e])
    ensures Open(t.pre.streams[e])
  {
    hide Outstanding, Due, NextTime, Distance, Wrap, Ready;
  }

  lemma TurnsAreFormed(profiles: seq<Profile>, t: Turn)
    requires Serves(profiles, t)
    ensures Formed(profiles, t.pre) && Formed(profiles, t.post)
  {
  }

  /** An open stream that is ready and not the one served is further away. */
  lemma DistinctIsFurther(profiles: seq<Profile>, t: Turn, e: nat)
    requires Serves(profiles, t) && e < |profiles| && e != t.served
    requires Ready(profiles[e], t.pre.streams[e], t.pre.now) && Open(t.post.streams[e])
    ensures Distance(t.pre.pointer, e, |profiles|) > 0 && profiles[e].name != ""
  {
    hide Outstanding, Due, NextTime, Wrap;
  }

  /** No starvation: a stream that is ready when a run of turns begins, and is open to its end,
      is served within its distance from the pointer, and so within stream_count messages,
      whatever its connection's callbacks do meanwhile. */
  lemma {:induction false} NoStarvation(profiles: seq<Profile>, turns: seq<Turn>, e: nat) returns (i: nat)
    requires TurnRun(profiles, turns) && turns != [] && e < |profiles|
    requires Formed(profiles, turns[0].pre) && Ready(profiles[e], turns[0].pre.streams[e], turns[0].pre.now)
    requires forall k | 0 <= k < |turns| :: e < |turns[k].post.streams| && Open(turns[k].post.streams[e])
    requires |turns| > Distance(turns[0].pre.pointer, e, |profiles|)
    ensures i <= Distance(turns[0].pre.pointer, e, |profiles|) < |profiles|
    ensures turns[i].served == e
    decreases Distance(turns[0].pre.pointer, e, |profiles|)
  {
    hide Serves, Passes, Ready, Open, Distance;
    if turns[0].served == e {
      i := 0;
    } else {
      DistinctIsFurther(profiles, turns[0], e);
      StaysOpen(profiles, turns[0].post, turns[1], e);
      TurnBringsCloser(profiles, turns[0], turns[1].pre, e);
      TurnsAreFormed(profiles, turns[1]);
      var rest := turns[1..];
      forall k | 0 <= k < |rest| - 1
        ensures Passes(profiles, rest[k].post, rest[k + 1].pre)
      {
        assert rest[k] == turns[k + 1] && rest[k + 1] == turns[k + 2];
      }
      var j := NoStarvation(profiles, rest, e);
      i := j + 1;
    }
  }

  // ---------------------------------------------------------------- pacing of one stream

  function SlotOfTurn(p: Profile, t: Turn, s: nat): Slot
    requires s < |t.pre.streams| && p.sendPps > 0
  {
    var x := t.pre.streams[s];
    Slot(t.at as real, StartedAt(x.nextSendTime, t.at as real), NextTime(p, x, t.at))
  }

  /** The slots stream `s` takes in a run of turns. */
  function TurnSlots(profiles: seq<Profile>, turns: seq<Turn>, s: nat): seq<Slot>
    requires s < |profiles| && profiles[s].sendPps > 0
    requires forall i | 0 <= i < |turns| :: s < |turns[i].pre.streams|
  {
    if turns == [] then []
    else
      var t := turns[|turns| - 1];
      TurnSlots(profiles, turns[..|turns| - 1], s) + if t.served == s then [SlotOfTurn(profiles[s], t, s)] else []
  }

  /** The slots taken so far form a chain that ends at the stream's present clock. */
  ghost predicate TurnChain(p: Profile, slots: seq<Slot>, last: Moment, s: nat)
    requires p.sendPps > 0 && s < |last.streams|
  {
    && SlotChain(slots, StreamInterval(p))
    && last.now > 0 && last.streams[s].nextSendTime >= 0.0
    && (slots != [] ==> slots[|slots| - 1].time <= last.now as real)
    && (slots != [] ==> slots[|slots| - 1].after == last.streams[s].nextSendTime > 0.0)
  }

  lemma PassingKeepsChain(profiles: seq<Profile>, slots: seq<Slot>, last: Moment, next: Moment, s: nat)
    requires s < |profiles| && profiles[s].sendPps > 0 && profiles[s].name != "" && Passes(profiles, last, next)
    requires TurnChain(profiles[s], slots, last, s)
    ensures TurnChain(profiles[s], slots, next, s)
  {
    hide SlotChain, StreamInterval, Outstanding;
  }

  lemma ServedTurn(profiles: seq<Profile>, t: Turn, s: nat)
    requires Serves(profiles, t) && s < |profiles| && profiles[s].sendPps > 0 && profiles[s].name != ""
    requires t.pre.now > 0 && t.pre.streams[s].nextSendTime >= 0.0
    ensures t.post.now > 0 && t.post.streams[s].nextSendTime >= 0.0
    ensures t.served != s ==> t.post.streams[s].nextSendTime == t.pre.streams[s].nextSendTime
    ensures t.served == s ==>
              var slot := SlotOfTurn(profiles[s], t, s);
              && ValidSlot(slot, StreamInterval(profiles[s]))
              && slot.after == t.post.streams[s].nextSendTime > 0.0
              && (t.pre.streams[s].nextSendTime > 0.0 ==> slot.before == t.pre.streams[s].nextSendTime)
              && t.pre.now as real <= slot.time <= t.post.now as real
  {
    hide Outstanding, StreamInterval, Ready, Distance, Wrap;
    IntervalIsPositive(profiles[s]);
  }

  lemma TimeIsMonotone(profiles: seq<Profile>, t: Turn)
    requires Serves(profiles, t)
    ensures t.pre.now <= t.post.now
  {
  }

  lemma TurnKeepsChain(profiles: seq<Profile>, slots: seq<Slot>, t: Turn, s: nat)
    requires s < |profiles| && profiles[s].sendPps > 0 && profiles[s].name != "" && Serves(profiles, t)
    requires TurnChain(profiles[s], slots, t.pre, s)
    ensures s < |t.post.streams| && s < |t.pre.streams|
    ensures TurnChain(profiles[s], slots + if t.served == s then [SlotOfTurn(profiles[s], t, s)] else [], t.post, s)
  {
    hide SlotChain, StreamInterval, Serves, ValidSlot;
    TurnsAreFormed(profiles, t);
    TimeIsMonotone(profiles, t);
    ServedTurn(profiles, t, s);
    if t.served == s {
      SlotChainSnoc(slots, SlotOfTurn(profiles[s], t, s), StreamInterval(profiles[s]));
    } else {
      assert slots + [] == slots;
    }
  }

  lemma FreshTurnChain(p: Profile, first: Moment, s: nat)
    requires p.sendPps > 0 && s < |first.streams| && first.now > 0 && first.streams[s].nextSendTime >= 0.0
    ensures TurnChain(p, [], first, s)
  {
  }

  /** The slots of a paced stream over any run of turns form a chain. */
  lemma {:induction false} TurnSlotsFormChain(profiles: seq<Profile>, turns: seq<Turn>, s: nat)
    requires TurnRun(profiles, turns) && turns != [] && s < |profiles|
    requires profiles[s].sendPps > 0 && profiles[s].name != ""
    requires turns[0].pre.now > 0 && s < |turns[0].pre.streams| && turns[0].pre.streams[s].nextSendTime >= 0.0
    ensures forall i | 0 <= i < |turns| :: s < |turns[i].pre.streams|
    ensures s < |turns[|turns| - 1].post.streams|
    ensures TurnChain(profiles[s], TurnSlots(profiles, turns, s), turns[|turns| - 1].post, s)
  {
    hide Serves, Passes, TurnChain;
    forall i | 0 <= i < |turns|
      ensures s < |turns[i].pre.streams| && s < |turns[i].post.streams|
    {
      TurnsAreFormed(profiles, turns[i]);
    }
    var earlier, t := turns[..|turns| - 1], turns[|turns| - 1];
    if earlier == [] {
      FreshTurnChain(profiles[s], t.pre, s);
    } else {
      TurnSlotsFormChain(profiles, earlier, s);
      PassingKeepsChain(profiles, TurnSlots(profiles, earlier, s), earlier[|earlier| - 1].post, t.pre, s);
    }
    TurnKeepsChain(profiles, TurnSlots(profiles, earlier, s), t, s);
  }
}
