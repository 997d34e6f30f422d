/** A stream of the QUIC client and what is looked at in it. */
module QuicStreams {
  import opened Wire
  import opened Window
  import opened Rotation
  import opened Pacing

  datatype QuicStream = QuicStream(
    counters: Counters,
    nextSendTime: real,
    started: bool,
    shutdownStarted: bool,
    closed: bool)

  predicate Usable(p: Profile, x: QuicStream) {
    x.started && !x.shutdownStarted && !x.closed && p.name != ""
  }

  /** Neither closed nor waiting for echoes: AllStreamsDrained skips closed streams. */
  predicate Settled(x: QuicStream) {
    x.closed || x.counters.nextSequence == x.counters.echoedMessages
  }

  /** Started, open and not shut down yet. */
  predicate Unshut(x: QuicStream) {
    x.started && !x.closed && !x.shutdownStarted
  }

  predicate Ready(p: Profile, x: QuicStream, now: nat) {
    Usable(p, x) && Eligible(p, Lane(x.counters, x.nextSendTime), now)
  }

  /** No stream was ready at time `now`, but for those that have been closed since. */
  ghost predicate NoneReady(profiles: seq<Profile>, start: seq<QuicStream>, now: nat, streams: seq<QuicStream>) {
    && |start| == |profiles| == |streams|
    && forall s | 0 <= s < |profiles| :: !Ready(profiles[s], start[s], now) || streams[s].closed
  }

  lemma NoneReadyEarlier(profiles: seq<Profile>, start: seq<QuicStream>, earlier: nat, now: nat,
                         streams: seq<QuicStream>, later: seq<QuicStream>)
    requires NoneReady(profiles, start, now, streams) && earlier <= now && |later| == |streams|
    requires forall s | 0 <= s < |streams| && streams[s].closed :: later[s].closed
    ensures NoneReady(profiles, start, earlier, later)
  {
    forall s | 0 <= s < |profiles| && Ready(profiles[s], start[s], earlier)
      ensures later[s].closed
    {
      if profiles[s].sendPps > 0 {
        DueStaysDue(start[s].nextSendTime, earlier, now);
      }
    }
  }

  /** Pacing aside. */
  function Untimed(streams: seq<QuicStream>): (r: seq<QuicStream>)
    ensures |r| == |streams| && forall s | 0 <= s < |r| :: r[s] == streams[s].(nextSendTime := 0.0)
  {
    seq(|streams|, s requires 0 <= s < |streams| => streams[s].(nextSendTime := 0.0))
  }

  lemma UntimedSet(streams: seq<QuicStream>, s: nat, x: QuicStream)
    requires s < |streams|
    ensures Untimed(streams[s := x]) == Untimed(streams)[s := x.(nextSendTime := 0.0)]
  {
  }

  /** What callbacks leave alone in a stream, and the flags they only ever set. */
  predicate SameStream(a: QuicStream, b: QuicStream) {
    && b.shutdownStarted == a.shutdownStarted
    && (a.started ==> b.started) && (a.closed ==> b.closed)
  }

  /** A stream at two moments, with the echoes counted by then. */
  ghost predicate MovedOn(a: QuicStream, before: nat, b: QuicStream, after: nat) {
    SameStream(a, b) && before <= after
  }

  ghost predicate MovedAll(a: seq<QuicStream>, before: seq<nat>, b: seq<QuicStream>, after: seq<nat>) {
    && |a| == |before| == |b| == |after|
    && forall s | 0 <= s < |a| :: MovedOn(a[s], before[s], b[s], after[s])
  }

  lemma MovedAllJoins(a: seq<QuicStream>, before: seq<nat>, mid: seq<QuicStream>, between: seq<nat>,
                      b: seq<QuicStream>, after: seq<nat>)
    requires MovedAll(a, before, mid, between) && MovedAll(mid, between, b, after)
    ensures MovedAll(a, before, b, after)
  {
  }

  lemma NothingMoves(a: seq<QuicStream>, before: seq<nat>)
    requires |a| == |before|
    ensures MovedAll(a, before, a, before)
  {
  }

  lemma OpenBefore(a: seq<QuicStream>, before: seq<nat>, b: seq<QuicStream>, after: seq<nat>)
    requires MovedAll(a, before, b, after)
    ensures |a| == |before| == |b| == |after|
    ensures forall s | 0 <= s < |a| :: b[s].shutdownStarted == a[s].shutdownStarted && (a[s].started ==> b[s].started)
  {
  }

  lemma EchoesKeepTracking(p: Profile, c: Counters, built: nat, echoed: nat, more: nat)
    requires ValidProfile(p) && Tracks(p, c, built, echoed, []) && more <= Outstanding(c)
    ensures Tracks(p, CountEchoed(c, more), built, echoed + more, [])
  {
    TrackedWindow(p, c, built, echoed, []);
    WrapAdd(echoed, more);
  }

  /** Callbacks never take away what makes a stream ready, unless they close it. */
  lemma ReadyStays(p: Profile, a: QuicStream, b: QuicStream, built: nat, before: nat, after: nat, earlier: nat,
      now: nat)
    requires ValidProfile(p) && earlier <= now
    requires Tracks(p, a.counters, built, before, []) && Tracks(p, b.counters, built, after, [])
    requires MovedOn(a, before, b, after) && b.nextSendTime == a.nextSendTime
    ensures Ready(p, a, earlier) && !b.closed ==> Ready(p, b, now)
  {
    TrackedWindow(p, a.counters, built, before, []);
    TrackedWindow(p, b.counters, built, after, []);
  }

  lemma SettledStays(p: Profile, a: QuicStream, b: QuicStream, built: nat, before: nat, after: nat)
    requires ValidProfile(p)
    requires Tracks(p, a.counters, built, before, []) && Tracks(p, b.counters, built, after, [])
    requires MovedOn(a, before, b, after)
    ensures Settled(a) ==> Settled(b)
  {
    TrackedWindow(p, a.counters, built, before, []);
    TrackedWindow(p, b.counters, built, after, []);
  }

  lemma SettledMeans(x: QuicStream)
    ensures Settled(x) == (x.closed || x.counters.nextSequence == x.counters.echoedMessages)
  {
  }

  /** A stream selected for sending still has room when its message is built. */
  lemma RoomStays(p: Profile, a: QuicStream, b: QuicStream, built: nat, before: nat, after: nat, nextSendTime: real,
      at: nat)
    requires ValidProfile(p) && MovedOn(a, before, b, after) && Eligible(p, Lane(a.counters, nextSendTime), at)
    requires Tracks(p, a.counters, built, before, []) && Tracks(p, b.counters, built, after, [])
    ensures WindowOpen(p, b.counters)
  {
    TrackedWindow(p, a.counters, built, before, []);
    TrackedWindow(p, b.counters, built, after, []);
  }

  lemma RoomForOne(p: Profile, c: Counters, built: nat, echoed: nat)
    requires ValidProfile(p) && Tracks(p, c, built, echoed, []) && WindowOpen(p, c)
    ensures Tracks(p, CountBuilt(c), built + 1, echoed, [])
    ensures c.nextSequence == built % TWO_TO_64
  {
    TrackedWindow(p, c, built, echoed, []);
    WrapAdd(built, 1);
  }

  lemma NothingTracked(p: Profile)
    requires ValidProfile(p)
    ensures Tracks(p, Counters(0, 0), 0, 0, [])
  {
  }

  /** The checks on one candidate, in order; a due stream's clock is advanced. */
  method Consider(p: Profile, x: QuicStream, now: nat) returns (due: bool, next: real)
    ensures due == (x.started && !x.shutdownStarted && !x.closed && Eligible(p, Lane(x.counters, x.nextSendTime), now))
    ensures due ==> next == ServedTime(p, Lane(x.counters, x.nextSendTime), now)
  {
    next := x.nextSendTime;
    if !x.started || x.shutdownStarted || x.closed {
      return false, next;
    }
    if Outstanding(x.counters) >= p.maxInflight {
      return false, next;
    }
    if p.sendPps > 0 {
      if next == 0.0 {
        next := now as real;
      }
      if next > now as real {
        return false, next;
      }
      var interval := 1_000_000_000.0 / (p.sendPps as real);
      next := next + interval;
      if next + (interval * 4.0) < now as real {
        next := now as real;
      }
    }
    return true, next;
  }
}
