/** The in-flight window of a stream, and what a run of stream selections builds. */
module Window {
  import opened Wire
  import opened Transport

  datatype Profile = Profile(name: string, messageSize: nat, maxInflight: nat, sendPps: nat)

  predicate ValidProfile(p: Profile) {
    HEADER_SIZE <= p.messageSize < TWO_TO_32 && 1 <= p.maxInflight < TWO_TO_32
  }

  predicate ValidProfiles(profiles: seq<Profile>) {
    forall s | 0 <= s < |profiles| :: ValidProfile(profiles[s])
  }

  /** The two 64-bit counters of a client stream. */
  datatype Counters = Counters(nextSequence: nat, echoedMessages: nat)

  /** The unsigned 64-bit subtraction of the window test. */
  function Outstanding(c: Counters): (n: nat) {
    (c.nextSequence - c.echoedMessages) % TWO_TO_64
  }

  predicate WindowOpen(p: Profile, c: Counters) {
    Outstanding(c) < p.maxInflight
  }

  function CountBuilt(c: Counters): Counters {
    c.(nextSequence := (c.nextSequence + 1) % TWO_TO_64)
  }

  function CountEchoed(c: Counters, n: nat): Counters {
    c.(echoedMessages := (c.echoedMessages + n) % TWO_TO_64)
  }

  /** One selection of the scheduler: which stream, and the clock when its frame is built. */
  datatype Pick = Pick(ordinal: nat, builtAt: nat)

  /** AllStreamsDrained: every echo has come back. */
  predicate AllDrained(cs: seq<Counters>) {
    forall s | 0 <= s < |cs| :: cs[s].nextSequence == cs[s].echoedMessages
  }

  function BuildFrame(p: Profile, c: Counters, builtAt: nat): Bytes
    requires ValidProfile(p)
  {
    Frame(c.nextSequence, p.messageSize, builtAt)
  }

  function AfterPicks(counters: seq<Counters>, picks: seq<Pick>): (after: seq<Counters>)
    ensures |after| == |counters|
  {
    if picks == [] then counters
    else
      var after, o := AfterPicks(counters, picks[..|picks| - 1]), picks[|picks| - 1].ordinal;
      if o < |counters| then after[o := CountBuilt(after[o])] else after
  }

  ghost predicate ValidPicks(profiles: seq<Profile>, counters: seq<Counters>, picks: seq<Pick>)
    requires |profiles| == |counters|
  {
    picks == [] ||
    var earlier, pick := picks[..|picks| - 1], picks[|picks| - 1];
    && ValidPicks(profiles, counters, earlier)
    && pick.ordinal < |profiles|
    && WindowOpen(profiles[pick.ordinal], AfterPicks(counters, earlier)[pick.ordinal])
  }

  /** The messages a run of selections leaves in the local send list. */
  function Built(profiles: seq<Profile>, counters: seq<Counters>, picks: seq<Pick>): (sends: seq<Send>)
    requires |profiles| == |counters| && ValidProfiles(profiles)
    ensures |sends| <= |picks|
  {
    if picks == [] then []
    else
      var earlier, pick := picks[..|picks| - 1], picks[|picks| - 1];
      Built(profiles, counters, earlier) +
      if pick.ordinal < |profiles|
      then [Send(pick.ordinal,
                 BuildFrame(profiles[pick.ordinal], AfterPicks(counters, earlier)[pick.ordinal], pick.builtAt))]
      else []
  }

  lemma {:induction false} PicksKeepEchoes(counters: seq<Counters>, picks: seq<Pick>)
    ensures forall s | 0 <= s < |counters| ::
              AfterPicks(counters, picks)[s].echoedMessages == counters[s].echoedMessages
  {
    if picks == [] {
    } else {
      PicksKeepEchoes(counters, picks[..|picks| - 1]);
    }
  }

  lemma OneMorePick(profiles: seq<Profile>, counters: seq<Counters>, picks: seq<Pick>, pick: Pick)
    requires |profiles| == |counters| && ValidProfiles(profiles)
    requires ValidPicks(profiles, counters, picks) && pick.ordinal < |profiles|
    requires WindowOpen(profiles[pick.ordinal], AfterPicks(counters, picks)[pick.ordinal])
    ensures var c := AfterPicks(counters, picks)[pick.ordinal];
            && ValidPicks(profiles, counters, picks + [pick])
            && AfterPicks(counters, picks + [pick]) == AfterPicks(counters, picks)[pick.ordinal := CountBuilt(c)]
            && Built(profiles, counters, picks + [pick])
               == Built(profiles, counters, picks) + [Send(pick.ordinal,
                   BuildFrame(profiles[pick.ordinal], c, pick.builtAt))]
  {
    hide WindowOpen, Frame;
    assert (picks + [pick])[..|picks|] == picks;
  }

  /** The frames in `local` carry the sequence numbers from `first` on; only their
      timestamps are still open. */
  ghost predicate Numbered(local: seq<Bytes>, first: nat, size: nat)
    requires size >= HEADER_SIZE
  {
    forall j | 0 <= j < |local| ::
      |local[j]| == size && Stamp(local[j], 0) == Frame(first + j, size, 0)
  }

  /** The wrapped counters stand for `submitted` messages handed to the transport plus the
      frames of `local`, of which `echoed` have come back; the window is respected. */
  ghost predicate Tracks(p: Profile, c: Counters, submitted: nat, echoed: nat, local: seq<Bytes>)
    requires ValidProfile(p)
  {
    && echoed <= submitted
    && submitted + |local| - echoed <= p.maxInflight
    && c == Counters((submitted + |local|) % TWO_TO_64, echoed % TWO_TO_64)
    && Numbered(local, submitted, p.messageSize)
  }

  /** The unsigned subtraction yields the true number of outstanding messages even after
      the counters have wrapped. */
  lemma OutstandingIsExact(built: nat, echoed: nat)
    requires echoed <= built < echoed + TWO_TO_64
    ensures Outstanding(Counters(built % TWO_TO_64, echoed % TWO_TO_64)) == built - echoed
  {
  }

  lemma TrackedWindow(p: Profile, c: Counters, submitted: nat, echoed: nat, local: seq<Bytes>)
    requires ValidProfile(p) && Tracks(p, c, submitted, echoed, local)
    ensures Outstanding(c) == submitted + |local| - echoed
    ensures c.nextSequence == c.echoedMessages <==> submitted + |local| == echoed
  {
    OutstandingIsExact(submitted + |local|, echoed);
  }

  lemma NumberedSnoc(local: seq<Bytes>, first: nat, size: nat, frame: Bytes)
    requires size >= HEADER_SIZE && Numbered(local, first, size)
    requires |frame| == size && Stamp(frame, 0) == Frame(first + |local|, size, 0)
    ensures Numbered(local + [frame], first, size)
  {
  }

  lemma BuiltFrameIsNext(p: Profile, c: Counters, n: nat, builtAt: nat)
    requires ValidProfile(p) && c.nextSequence == n % TWO_TO_64
    ensures Stamp(BuildFrame(p, c, builtAt), 0) == Frame(n, p.messageSize, 0)
  {
    FrameOfWrappedSequence(n, p.messageSize, builtAt);
    StampFrame(n, p.messageSize, builtAt, 0);
  }

  lemma WrapAdd(n: nat, k: nat)
    ensures (n % TWO_TO_64 + k) % TWO_TO_64 == (n + k) % TWO_TO_64
  {
  }

  lemma WrapSubtract(next: nat, echoed: nat, n: nat)
    requires n <= (next - echoed) % TWO_TO_64
    ensures (next - (echoed + n) % TWO_TO_64) % TWO_TO_64 == (next - echoed) % TWO_TO_64 - n
  {
  }

  /** An echo that was outstanding brings the unsigned difference down by one. */
  lemma CountingLowersOutstanding(c: Counters, n: nat)
    requires n <= Outstanding(c)
    ensures Outstanding(CountEchoed(c, n)) == Outstanding(c) - n
  {
    WrapSubtract(c.nextSequence, c.echoedMessages, n);
  }

  lemma BuildNext(p: Profile, c: Counters, submitted: nat, echoed: nat, local: seq<Bytes>, builtAt: nat)
    requires ValidProfile(p) && Tracks(p, c, submitted, echoed, local) && WindowOpen(p, c)
    ensures Tracks(p, CountBuilt(c), submitted, echoed, local + [BuildFrame(p, c, builtAt)])
  {
    var longer := local + [BuildFrame(p, c, builtAt)];
    assert Numbered(longer, submitted, p.messageSize) by {
      BuiltFrameIsNext(p, c, submitted + |local|, builtAt);
      NumberedSnoc(local, submitted, p.messageSize, BuildFrame(p, c, builtAt));
    }
    assert submitted + |local| - echoed < p.maxInflight by {
      TrackedWindow(p, c, submitted, echoed, local);
    }
    WrapAdd(submitted + |local|, 1);
    assert |longer| == |local| + 1;
  }

  /** A whole run of selections keeps every stream's window and numbering. */
  lemma {:induction false} PicksKeepTracking(profiles: seq<Profile>, counters: seq<Counters>, picks: seq<Pick>,
                                             s: nat, submitted: nat, echoed: nat)
    requires |profiles| == |counters| && ValidProfiles(profiles)
    requires s < |profiles| && ValidPicks(profiles, counters, picks)
    requires Tracks(profiles[s], counters[s], submitted, echoed, [])
    ensures Tracks(profiles[s], AfterPicks(counters, picks)[s], submitted, echoed,
                   DataFor(Built(profiles, counters, picks), s))
  {
    if picks == [] {
    } else {
      var earlier, pick := picks[..|picks| - 1], picks[|picks| - 1];
      PicksKeepTracking(profiles, counters, earlier, s, submitted, echoed);
      var before := AfterPicks(counters, earlier);
      var send := Send(pick.ordinal, BuildFrame(profiles[pick.ordinal], before[pick.ordinal], pick.builtAt));
      var sends := Built(profiles, counters, earlier);
      DataForAppend(sends, [send], s);
      if pick.ordinal == s {
        assert DataFor([send], s) == [send.data];
        BuildNext(profiles[s], before[s], submitted, echoed, DataFor(sends, s), pick.builtAt);
      } else {
        assert DataFor(sends + [send], s) == DataFor(sends, s);
      }
    }
  }

  lemma {:induction false} BuiltShape(profiles: seq<Profile>, counters: seq<Counters>, picks: seq<Pick>)
    requires |profiles| == |counters| && ValidProfiles(profiles)
    ensures forall i | 0 <= i < |Built(profiles, counters, picks)| ::
              var send := Built(profiles, counters, picks)[i];
              send.stream < |profiles| && |send.data| == profiles[send.stream].messageSize >= HEADER_SIZE
  {
    if picks == [] {
    } else {
      BuiltShape(profiles, counters, picks[..|picks| - 1]);
    }
  }

  /** The late rewrite turns the front local frame into the frame its stream owes next. */
  lemma SubmitFront(p: Profile, c: Counters, submitted: nat, echoed: nat, local: seq<Bytes>, now: nat)
    requires ValidProfile(p) && Tracks(p, c, submitted, echoed, local) && local != []
    ensures Stamp(local[0], now) == Frame(submitted, p.messageSize, now)
    ensures Tracks(p, c, submitted + 1, echoed, local[1..])
  {
    StampTwice(local[0], 0, now);
    StampFrame(submitted, p.messageSize, 0, now);
    assert forall j | 0 <= j < |local[1..]| :: local[1..][j] == local[j + 1];
  }

  // ---------------------------------------------------------------- free window space

  /** How many more messages the window of one stream admits. */
  function FreeOf(p: Profile, c: Counters): nat {
    if WindowOpen(p, c) then p.maxInflight - Outstanding(c) else 0
  }

  function FreeSpace(profiles: seq<Profile>, cs: seq<Counters>): nat
    requires |profiles| == |cs|
  {
    if cs == [] then 0 else FreeOf(profiles[0], cs[0]) + FreeSpace(profiles[1..], cs[1..])
  }

  lemma {:induction false} FreeUpdate(profiles: seq<Profile>, cs: seq<Counters>, s: nat, c: Counters)
    requires |profiles| == |cs| && s < |cs|
    ensures FreeSpace(profiles, cs[s := c])
         == FreeSpace(profiles, cs) - FreeOf(profiles[s], cs[s]) + FreeOf(profiles[s], c)
  {
    if s > 0 {
      FreeUpdate(profiles[1..], cs[1..], s - 1, c);
      assert cs[s := c][1..] == cs[1..][s - 1 := c];
    } else {
      assert cs[s := c][1..] == cs[1..];
    }
  }

  lemma FreeOfIsZero(p: Profile, c: Counters)
    ensures FreeOf(p, c) == 0 <==> !WindowOpen(p, c)
  {
  }

  lemma {:induction false} FreeIsZeroWhenFull(profiles: seq<Profile>, cs: seq<Counters>)
    requires |profiles| == |cs|
    ensures FreeSpace(profiles, cs) == 0 <==> forall s | 0 <= s < |cs| :: !WindowOpen(profiles[s], cs[s])
  {
    hide WindowOpen;
    if cs == [] {
    } else {
      FreeIsZeroWhenFull(profiles[1..], cs[1..]);
      assert FreeOf(profiles[0], cs[0]) == 0 <==> !WindowOpen(profiles[0], cs[0])
          by { FreeOfIsZero(profiles[0], cs[0]); }
      assert forall s | 1 <= s < |cs| :: cs[s] == cs[1..][s - 1] && profiles[s] == profiles[1..][s - 1];
      if forall s | 0 <= s < |cs| :: !WindowOpen(profiles[s], cs[s]) {
        assert forall s | 0 <= s < |cs[1..]| :: !WindowOpen(profiles[1..][s], cs[1..][s]);
      }
    }
  }

  lemma BuildingUsesOne(p: Profile, c: Counters)
    requires ValidProfile(p) && WindowOpen(p, c)
    ensures FreeOf(p, CountBuilt(c)) == FreeOf(p, c) - 1
  {
    assert Outstanding(CountBuilt(c)) == Outstanding(c) + 1;
  }

  lemma {:induction false} FreeIsBounded(profiles: seq<Profile>, cs: seq<Counters>)
    requires |profiles| == |cs| && ValidProfiles(profiles)
    ensures FreeSpace(profiles, cs) <= |profiles| * 0xFFFF_FFFF
  {
    hide WindowOpen, Outstanding;
    if cs == [] {
    } else {
      FreeIsBounded(profiles[1..], cs[1..]);
      assert ValidProfile(profiles[0]);
    }
  }

  /** Stream counts and windows are 32-bit, so the free space is below the 64-bit limit an
      unlimited call passes: such a call always fills the windows. */
  lemma FreeFitsTheLimit(profiles: seq<Profile>, cs: seq<Counters>)
    requires |profiles| == |cs| < TWO_TO_32 && ValidProfiles(profiles)
    ensures FreeSpace(profiles, cs) < TWO_TO_64 - 1
  {
    FreeIsBounded(profiles, cs);
  }

  /** Every pick takes one place of the free space. */
  lemma {:induction false} PicksTakeSpace(profiles: seq<Profile>, cs: seq<Counters>, picks: seq<Pick>)
    requires |profiles| == |cs| && ValidProfiles(profiles) && ValidPicks(profiles, cs, picks)
    ensures |picks| + FreeSpace(profiles, AfterPicks(cs, picks)) == FreeSpace(profiles, cs)
  {
    hide FreeSpace, FreeOf, WindowOpen, CountBuilt;
    if picks == [] {
    } else {
      var earlier, o := picks[..|picks| - 1], picks[|picks| - 1].ordinal;
      PicksTakeSpace(profiles, cs, earlier);
      var before := AfterPicks(cs, earlier);
      FreeUpdate(profiles, before, o, CountBuilt(before[o]));
      BuildingUsesOne(profiles[o], before[o]);
    }
  }
}
