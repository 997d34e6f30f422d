/** Stream selection with rotating priority: the scan starts at the pointer, takes the
    first eligible stream and moves the pointer just past it. */
module Rotation {
  import opened Wire
  import opened Window
  import opened Pacing

  /** What selection looks at in a stream. */
  datatype Lane = Lane(counters: Counters, nextSendTime: real)

  datatype Schedule = Schedule(lanes: seq<Lane>, pointer: nat, now: nat)

  function StreamInterval(p: Profile): real
    requires p.sendPps > 0
  {
    1_000_000_000.0 / (p.sendPps as real)
  }

  /** The window is open and, for a paced stream, its clock has reached its next slot. */
  predicate Eligible(p: Profile, lane: Lane, now: nat) {
    WindowOpen(p, lane.counters) && (p.sendPps > 0 ==> Due(lane.nextSendTime, now as real))
  }

  /** Ordinals wrap around at the stream count. */
  function Wrap(x: nat, n: nat): nat
    requires n > 0
  {
    x % n
  }

  lemma WrapOnce(x: nat, n: nat)
    requires 0 < n && x < 2 * n
    ensures Wrap(x, n) == if x < n then x else x - n
  {
    if x < n {
      RemainderUnique(x, n, 0, x);
    } else {
      RemainderUnique(x, n, 1, x - n);
    }
  }

  /** The ordinal visited at the given attempt of a scan. */
  function Visited(pointer: nat, attempt: nat, n: nat): nat
    requires n > 0
  {
    Wrap(pointer + attempt, n)
  }

  /** At which attempt a scan from `pointer` visits `ordinal`. */
  function Distance(pointer: nat, ordinal: nat, n: nat): (d: nat)
    requires pointer < n && ordinal < n
    ensures d < n
  {
    if pointer <= ordinal then ordinal - pointer else ordinal + n - pointer
  }

  /** A scan of `n` attempts visits every ordinal once, the one at each distance. */
  lemma DistanceIsAttempt(pointer: nat, attempt: nat, n: nat)
    requires pointer < n && attempt < n
    ensures Visited(pointer, attempt, n) < n
    ensures Distance(pointer, Visited(pointer, attempt, n), n) == attempt
  {
    hide Wrap;
    WrapOnce(pointer + attempt, n);
  }

  lemma VisitedAtDistance(pointer: nat, ordinal: nat, n: nat)
    requires pointer < n && ordinal < n
    ensures Visited(pointer, Distance(pointer, ordinal, n), n) == ordinal
  {
    hide Wrap;
    WrapOnce(pointer + Distance(pointer, ordinal, n), n);
  }

  /** A served lane's clock: advanced by one slot when the stream is paced. */
  function ServedTime(p: Profile, lane: Lane, at: nat): real {
    if p.sendPps > 0 then Advance(StartedAt(lane.nextSendTime, at as real), StreamInterval(p), at as real)
    else lane.nextSendTime
  }

  /** One selection: the schedule before and after it, and the stream picked at time `at`. */
  datatype Selection = Selection(pre: Schedule, pick: nat, at: nat, post: Schedule)

  predicate Shaped(profiles: seq<Profile>, s: Schedule) {
    |s.lanes| == |profiles| && s.pointer < |profiles|
  }

  /** `attempt` and everything before it were found not eligible when the scan began. */
  ghost predicate SkippedBefore(profiles: seq<Profile>, s: Schedule, attempt: nat)
    requires Shaped(profiles, s)
  {
    forall a: nat | a < attempt && a < |profiles| ::
      var o := Visited(s.pointer, a, |profiles|);
      o < |profiles| && !Eligible(profiles[o], s.lanes[o], s.now)
  }

  ghost predicate Selects(profiles: seq<Profile>, sel: Selection) {
    var Selection(pre, pick, at, post) := sel;
    var n := |profiles|;
    && Shaped(profiles, pre) && Shaped(profiles, post) && pick < n
    && pre.now <= at <= post.now
    && Eligible(profiles[pick], pre.lanes[pick], at)
    && SkippedBefore(profiles, pre, Distance(pre.pointer, pick, n))
    && post.pointer == Wrap(pick + 1, n)
    && post.lanes == pre.lanes[pick := Lane(CountBuilt(pre.lanes[pick].counters),
                                            ServedTime(profiles[pick], pre.lanes[pick], at))]
  }

  /** Between two selections time passes and echoes arrive; nothing else touches what
      selection looks at. */
  ghost predicate Meanwhile(profiles: seq<Profile>, s: Schedule, s': Schedule) {
    && Shaped(profiles, s) && Shaped(profiles, s')
    && s'.pointer == s.pointer && s.now <= s'.now
    && forall o | 0 <= o < |profiles| ::
         && s'.lanes[o].nextSendTime == s.lanes[o].nextSendTime
         && Outstanding(s'.lanes[o].counters) <= Outstanding(s.lanes[o].counters)
  }

  /** Successive selections, in one PumpSends or over many. */
  ghost predicate SelectionRun(profiles: seq<Profile>, sels: seq<Selection>) {
    && (forall i | 0 <= i < |sels| :: Selects(profiles, sels[i]))
    && (forall i | 0 < i < |sels| :: Meanwhile(profiles, sels[i - 1].post, sels[i].pre))
  }

  /** The selections `sels` lead from schedule `s` to schedule `s'`. */
  ghost predicate Leads(profiles: seq<Profile>, s: Schedule, sels: seq<Selection>, s': Schedule) {
    && SelectionRun(profiles, sels)
    && if sels == [] then Meanwhile(profiles, s, s')
       else Meanwhile(profiles, s, sels[0].pre) && Meanwhile(profiles, sels[|sels| - 1].post, s')
  }

  lemma MeanwhileCompose(profiles: seq<Profile>, a: Schedule, b: Schedule, c: Schedule)
    requires Meanwhile(profiles, a, b) && Meanwhile(profiles, b, c)
    ensures Meanwhile(profiles, a, c)
  {
    hide Outstanding;
  }

  lemma TimePasses(profiles: seq<Profile>, s: Schedule, later: nat)
    requires Shaped(profiles, s) && s.now <= later
    ensures Meanwhile(profiles, s, s.(now := later))
  {
  }

  lemma LeadsThroughOneMore(profiles: seq<Profile>, s: Schedule, sels: seq<Selection>, m: Schedule, sel: Selection,
      s': Schedule)
    requires Leads(profiles, s, sels, m) && Meanwhile(profiles, m, sel.pre) && Selects(profiles, sel)
    requires Meanwhile(profiles, sel.post, s')
    ensures Leads(profiles, s, sels + [sel], s')
  {
    hide Selects, Meanwhile;
    if sels == [] {
      MeanwhileCompose(profiles, s, m, sel.pre);
    } else {
      MeanwhileCompose(profiles, sels[|sels| - 1].post, m, sel.pre);
    }
  }

  lemma LeadsLater(profiles: seq<Profile>, s: Schedule, sels: seq<Selection>, m: Schedule, s': Schedule)
    requires Leads(profiles, s, sels, m) && Meanwhile(profiles, m, s')
    ensures Leads(profiles, s, sels, s')
  {
    hide Selects, Meanwhile;
    MeanwhileCompose(profiles, if sels == [] then s else sels[|sels| - 1].post, m, s');
  }

  /** Successive calls: what leads on from where another run of selections has led. */
  lemma LeadsJoin(profiles: seq<Profile>, s: Schedule, a: seq<Selection>, m: Schedule, b: seq<Selection>, s': Schedule)
    requires Leads(profiles, s, a, m) && Leads(profiles, m, b, s')
    ensures Leads(profiles, s, a + b, s')
  {
    hide Selects, Meanwhile;
    if b == [] {
      LeadsLater(profiles, s, a, m, s');
      assert a + b == a;
    } else if a == [] {
      MeanwhileCompose(profiles, s, m, b[0].pre);
      assert a + b == b;
    } else {
      MeanwhileCompose(profiles, a[|a| - 1].post, m, b[0].pre);
      forall i | 0 < i < |a + b|
        ensures Meanwhile(profiles, (a + b)[i - 1].post, (a + b)[i].pre)
      {
        if i > |a| {
          assert (a + b)[i] == b[i - |a|] && (a + b)[i - 1] == b[i - |a| - 1];
        }
      }
    }
  }

  lemma DueStaysDue(next: real, now: nat, later: nat)
    requires Due(next, now as real) && now <= later
    ensures Due(next, later as real)
  {
  }

  lemma MeanwhileKeepsEligible(profiles: seq<Profile>, s: Schedule, s': Schedule, e: nat)
    requires Meanwhile(profiles, s, s') && e < |profiles| && Eligible(profiles[e], s.lanes[e], s.now)
    ensures Eligible(profiles[e], s'.lanes[e], s'.now) && s'.pointer == s.pointer
  {
    hide Due, Outstanding;
    if profiles[e].sendPps > 0 {
      DueStaysDue(s.lanes[e].nextSendTime, s.now, s'.now);
    }
  }

  /** A stream that is eligible stays so until it is served. */
  lemma StaysEligible(profiles: seq<Profile>, sel: Selection, next: Schedule, e: nat)
    requires Selects(profiles, sel) && Meanwhile(profiles, sel.post, next)
    requires e < |profiles| && e != sel.pick && Eligible(profiles[e], sel.pre.lanes[e], sel.pre.now)
    ensures Eligible(profiles[e], next.lanes[e], next.now)
  {
    hide Due, Outstanding;
    if profiles[e].sendPps > 0 {
      DueStaysDue(sel.pre.lanes[e].nextSendTime, sel.pre.now, next.now);
    }
  }

  lemma PickIsNearest(profiles: seq<Profile>, sel: Selection, e: nat)
    requires Selects(profiles, sel)
    requires e < |profiles| && Eligible(profiles[e], sel.pre.lanes[e], sel.pre.now)
    ensures Distance(sel.pre.pointer, sel.pick, |profiles|) <= Distance(sel.pre.pointer, e, |profiles|)
  {
    hide Eligible, ServedTime, CountBuilt, Visited;
    VisitedAtDistance(sel.pre.pointer, e, |profiles|);
  }

  lemma DistanceShrinks(pointer: nat, pick: nat, e: nat, n: nat)
    requires pointer < n && pick < n && e < n && e != pick
    requires Distance(pointer, pick, n) <= Distance(pointer, e, n)
    ensures Wrap(pick + 1, n) < n
    ensures Distance(Wrap(pick + 1, n), e, n) < Distance(pointer, e, n)
  {
    hide Wrap;
    WrapOnce(pick + 1, n);
  }

  /** Serving another stream brings the scan strictly closer to a waiting one. */
  lemma CloserToFront(profiles: seq<Profile>, sel: Selection, e: nat)
    requires Selects(profiles, sel)
    requires e < |profiles| && e != sel.pick && Eligible(profiles[e], sel.pre.lanes[e], sel.pre.now)
    ensures Distance(sel.post.pointer, e, |profiles|) < Distance(sel.pre.pointer, e, |profiles|)
  {
    hide Eligible, ServedTime, CountBuilt, SkippedBefore, Distance, Wrap;
    PickIsNearest(profiles, sel, e);
    DistanceShrinks(sel.pre.pointer, sel.pick, e, |profiles|);
  }

  lemma MeanwhilePointer(profiles: seq<Profile>, s: Schedule, s': Schedule)
    requires Meanwhile(profiles, s, s')
    ensures s'.pointer == s.pointer < |profiles|
  {
  }

  /** No starvation: an eligible stream is served within its distance from the pointer, and
      so within stream_count selections. */
  lemma {:induction false} NoStarvation(profiles: seq<Profile>, sels: seq<Selection>, e: nat) returns (i: nat)
    requires SelectionRun(profiles, sels) && sels != [] && e < |profiles|
    requires Eligible(profiles[e], sels[0].pre.lanes[e], sels[0].pre.now)
    requires |sels| > Distance(sels[0].pre.pointer, e, |profiles|)
    ensures i <= Distance(sels[0].pre.pointer, e, |profiles|) < |profiles|
    ensures sels[i].pick == e
    decreases Distance(sels[0].pre.pointer, e, |profiles|)
  {
    hide Selects, Meanwhile, Eligible;
    if sels[0].pick == e {
      i := 0;
    } else {
      CloserToFront(profiles, sels[0], e);
      MeanwhilePointer(profiles, sels[0].post, sels[1].pre);
      StaysEligible(profiles, sels[0], sels[1].pre, e);
      var rest := sels[1..];
      forall k | 0 < k < |rest|
        ensures Meanwhile(profiles, rest[k - 1].post, rest[k].pre)
      {
        assert rest[k - 1] == sels[k] && rest[k] == sels[k + 1];
      }
      var j := NoStarvation(profiles, rest, e);
      i := j + 1;
    }
  }

  // ---------------------------------------------------------------- pacing of one stream

  function SlotOf(p: Profile, sel: Selection, s: nat): Slot
    requires s < |sel.pre.lanes| && p.sendPps > 0
  {
    Slot(sel.at as real, StartedAt(sel.pre.lanes[s].nextSendTime, sel.at as real),
        ServedTime(p, sel.pre.lanes[s], sel.at))
  }

  /** The slots stream `s` takes in a run of selections. */
  function StreamSlots(profiles: seq<Profile>, sels: seq<Selection>, s: nat): seq<Slot>
    requires s < |profiles| && profiles[s].sendPps > 0
    requires forall i | 0 <= i < |sels| :: s < |sels[i].pre.lanes|
  {
    if sels == [] then []
    else
      var sel := sels[|sels| - 1];
      StreamSlots(profiles, sels[..|sels| - 1], s) +
      if sel.pick == s
      then [SlotOf(profiles[s], sel, s)]
      else []
  }

  lemma IntervalIsPositive(p: Profile)
    requires p.sendPps > 0
    ensures StreamInterval(p) > 0.0
  {
  }

  lemma ServedSlot(profiles: seq<Profile>, sel: Selection, s: nat)
    requires Selects(profiles, sel) && s < |profiles| && profiles[s].sendPps > 0
    requires sel.pre.now > 0 && sel.pre.lanes[s].nextSendTime >= 0.0
    ensures sel.post.now > 0 && sel.post.lanes[s].nextSendTime >= 0.0
    ensures sel.pick != s ==> sel.post.lanes[s].nextSendTime == sel.pre.lanes[s].nextSendTime
    ensures sel.pick == s ==>
              var slot := SlotOf(profiles[s], sel, s);
              && ValidSlot(slot, StreamInterval(profiles[s]))
              && slot.after == sel.post.lanes[s].nextSendTime > 0.0
              && (sel.pre.lanes[s].nextSendTime > 0.0 ==> slot.before == sel.pre.lanes[s].nextSendTime)
              && sel.pre.now as real <= slot.time <= sel.post.now as real
  {
    hide SkippedBefore, Outstanding, StreamInterval;
    IntervalIsPositive(profiles[s]);
  }

  /** The slots taken so far form a chain that ends at the lane's present clock. */
  ghost predicate StreamChain(p: Profile, slots: seq<Slot>, last: Schedule, s: nat)
    requires p.sendPps > 0 && s < |last.lanes|
  {
    && SlotChain(slots, StreamInterval(p))
    && last.now > 0 && last.lanes[s].nextSendTime >= 0.0
    && (slots != [] ==> slots[|slots| - 1].time <= last.now as real)
    && (slots != [] ==> slots[|slots| - 1].after == last.lanes[s].nextSendTime > 0.0)
  }

  lemma MeanwhileKeepsChain(profiles: seq<Profile>, slots: seq<Slot>, last: Schedule, next: Schedule, s: nat)
    requires s < |profiles| && profiles[s].sendPps > 0 && Meanwhile(profiles, last, next)
    requires StreamChain(profiles[s], slots, last, s)
    ensures StreamChain(profiles[s], slots, next, s)
  {
    hide SlotChain, StreamInterval;
  }

  lemma SelectsShape(profiles: seq<Profile>, sel: Selection)
    requires Selects(profiles, sel)
    ensures Shaped(profiles, sel.pre) && Shaped(profiles, sel.post) && sel.pre.now <= sel.post.now
  {
  }

  lemma SelectionKeepsChain(profiles: seq<Profile>, slots: seq<Slot>, sel: Selection, s: nat)
    requires s < |profiles| && profiles[s].sendPps > 0 && Selects(profiles, sel)
    requires StreamChain(profiles[s], slots, sel.pre, s)
    ensures StreamChain(profiles[s], slots + if sel.pick == s then [SlotOf(profiles[s], sel, s)] else [], sel.post, s)
  {
    hide SlotChain, StreamInterval, Selects, ValidSlot, Eligible;
    SelectsShape(profiles, sel);
    ServedSlot(profiles, sel, s);
    if sel.pick == s {
      SlotChainSnoc(slots, SlotOf(profiles[s], sel, s), StreamInterval(profiles[s]));
    } else {
      assert slots + [] == slots;
    }
  }

  lemma FreshChain(p: Profile, first: Schedule, s: nat)
    requires p.sendPps > 0 && s < |first.lanes| && first.now > 0 && first.lanes[s].nextSendTime >= 0.0
    ensures StreamChain(p, [], first, s)
  {
  }

  /** The slots of a paced stream over any run of selections form a chain, so the burst
      bound and the no-drift law hold for every stream clock. */
  lemma {:induction false} StreamSlotsFormChain(profiles: seq<Profile>, sels: seq<Selection>, s: nat)
    requires SelectionRun(profiles, sels) && s < |profiles| && profiles[s].sendPps > 0 && sels != []
    requires sels[0].pre.now > 0 && s < |sels[0].pre.lanes| && sels[0].pre.lanes[s].nextSendTime >= 0.0
    ensures forall i | 0 <= i < |sels| :: s < |sels[i].pre.lanes|
    ensures s < |sels[|sels| - 1].post.lanes|
    ensures StreamChain(profiles[s], StreamSlots(profiles, sels, s), sels[|sels| - 1].post, s)
  {
    hide Selects, Meanwhile, StreamChain;
    forall i | 0 <= i < |sels|
      ensures s < |sels[i].pre.lanes| && s < |sels[i].post.lanes|
    {
      SelectsShape(profiles, sels[i]);
    }
    var earlier, sel := sels[..|sels| - 1], sels[|sels| - 1];
    if earlier == [] {
      FreshChain(profiles[s], sel.pre, s);
    } else {
      StreamSlotsFormChain(profiles, earlier, s);
      MeanwhileKeepsChain(profiles, StreamSlots(profiles, earlier, s), earlier[|earlier| - 1].post, sel.pre, s);
    }
    SelectionKeepsChain(profiles, StreamSlots(profiles, earlier, s), sel, s);
  }
}
