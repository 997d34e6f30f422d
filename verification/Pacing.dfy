/** The pacing clock shared by the connection, stream and global schedules: a next send
    time that starts at the first look, advances by one interval per slot, and forgives the
    backlog once it exceeds four intervals. Times are in nanoseconds. */
module Pacing {
  /** Zero stands for a clock that has not been looked at yet. */
  function StartedAt(next: real, now: real): real {
    if next == 0.0 then now else next
  }

  predicate Due(next: real, now: real) {
    StartedAt(next, now) <= now
  }

  /** Taking a slot at time `now`. */
  function Advance(next: real, interval: real, now: real): real {
    var later := next + interval;
    if later + interval * 4.0 < now then now else later
  }

  /** One look at the clock; `used` says whether a due slot is then taken. The connection
      and stream clocks always take it, the global clock only when a message went out. */
  datatype Look = Look(time: real, used: bool)

  /** A slot that was taken: when, and the next send time before and after. */
  datatype Slot = Slot(time: real, before: real, after: real)

  function Took(next: real, look: Look): bool {
    Due(next, look.time) && look.used
  }

  function AfterLook(next: real, interval: real, look: Look): real {
    if Took(next, look) then Advance(StartedAt(next, look.time), interval, look.time)
    else StartedAt(next, look.time)
  }

  function AfterLooks(start: real, interval: real, looks: seq<Look>): real {
    if looks == [] then start
    else AfterLook(AfterLooks(start, interval, looks[..|looks| - 1]), interval, looks[|looks| - 1])
  }

  function SlotsOf(start: real, interval: real, looks: seq<Look>): seq<Slot> {
    if looks == [] then []
    else
      var earlier, look := looks[..|looks| - 1], looks[|looks| - 1];
      var next := AfterLooks(start, interval, earlier);
      SlotsOf(start, interval, earlier) +
      if Took(next, look)
      then [Slot(look.time, StartedAt(next, look.time), AfterLook(next, interval, look))]
      else []
  }

  /** The clock that drives the looks is positive and never goes back. */
  ghost predicate Monotone(looks: seq<Look>) {
    && (forall i | 0 <= i < |looks| :: looks[i].time > 0.0)
    && (forall i, j | 0 <= i < j < |looks| :: looks[i].time <= looks[j].time)
  }

  predicate ValidSlot(slot: Slot, interval: real) {
    slot.before <= slot.time && slot.after == Advance(slot.before, interval, slot.time)
  }

  /** Each slot starts from where the previous one left the clock. */
  ghost predicate SlotChain(slots: seq<Slot>, interval: real) {
    && (forall i | 0 <= i < |slots| :: ValidSlot(slots[i], interval))
    && (forall i | 0 < i < |slots| :: slots[i].before == slots[i - 1].after)
    && (forall i, j | 0 <= i <= j < |slots| :: slots[i].time <= slots[j].time)
  }

  lemma SlotChainSnoc(slots: seq<Slot>, slot: Slot, interval: real)
    requires SlotChain(slots, interval) && ValidSlot(slot, interval)
    requires slots != [] ==> slot.before == slots[|slots| - 1].after && slots[|slots| - 1].time <= slot.time
    ensures SlotChain(slots + [slot], interval)
  {
    var all := slots + [slot];
    forall i, j | 0 <= i <= j < |all|
      ensures all[i].time <= all[j].time
    {
      if i < |slots| {
        assert all[i].time <= slots[|slots| - 1].time;
      }
    }
  }

  lemma LookIsValid(next: real, interval: real, look: Look)
    requires next >= 0.0 && interval > 0.0 && look.time > 0.0
    ensures AfterLook(next, interval, look) > 0.0
    ensures Took(next, look) ==>
              ValidSlot(Slot(look.time, StartedAt(next, look.time), AfterLook(next, interval, look)), interval)
    ensures next > 0.0 ==> StartedAt(next, look.time) == next
    ensures !Took(next, look) && next > 0.0 ==> AfterLook(next, interval, look) == next
  {
  }

  /** Where a history of looks leaves the slots taken so far and the clock. */
  ghost predicate ChainUpTo(slots: seq<Slot>, interval: real, next: real, looks: seq<Look>) {
    && SlotChain(slots, interval)
    && next >= 0.0
    && (looks != [] ==> next > 0.0)
    && (slots != [] ==> looks != [] && slots[|slots| - 1].time <= looks[|looks| - 1].time)
    && (slots != [] ==> next == slots[|slots| - 1].after)
  }

  lemma NoSlots(interval: real)
    ensures SlotChain([], interval)
  {
  }

  /** The slots taken in any history form a chain that ends at the current clock value. */
  lemma {:induction false} HistoryIsChain(start: real, interval: real, looks: seq<Look>)
    requires start >= 0.0 && interval > 0.0 && Monotone(looks)
    ensures ChainUpTo(SlotsOf(start, interval, looks), interval, AfterLooks(start, interval, looks), looks)
  {
    hide ValidSlot, StartedAt, Due, Took, AfterLook, SlotChain;
    if looks == [] {
      NoSlots(interval);
    } else {
      var earlier, look := looks[..|looks| - 1], looks[|looks| - 1];
      HistoryIsChain(start, interval, earlier);
      var slots, next := SlotsOf(start, interval, earlier), AfterLooks(start, interval, earlier);
      LookIsValid(next, interval, look);
      if Took(next, look) {
        assert slots != [] ==> slots[|slots| - 1].time <= earlier[|earlier| - 1].time <= look.time;
        SlotChainSnoc(slots, Slot(look.time, StartedAt(next, look.time), AfterLook(next, interval, look)), interval);
      } else {
        assert SlotsOf(start, interval, looks) == slots;
      }
    }
  }

  /** Taking `slots` has led a clock from `start` to `next` by the time `now`. */
  ghost predicate ClockRan(start: real, interval: real, slots: seq<Slot>, next: real, now: real) {
    && SlotChain(slots, interval)
    && start >= 0.0 && next >= 0.0
    && (slots == [] ==> next == start || start == 0.0 < next)
    && (slots != [] && start > 0.0 ==> slots[0].before == start)
    && (slots != [] ==> slots[|slots| - 1].after == next && next > 0.0 && slots[|slots| - 1].time <= now)
  }

  lemma ClockStands(start: real, interval: real, now: real)
    requires start >= 0.0
    ensures ClockRan(start, interval, [], start, now)
  {
  }

  lemma ClockIsNonNegative(start: real, interval: real, slots: seq<Slot>, next: real, now: real)
    requires ClockRan(start, interval, slots, next, now)
    ensures next >= 0.0
  {
  }

  lemma ClockRanLater(start: real, interval: real, slots: seq<Slot>, next: real, now: real, later: real)
    requires ClockRan(start, interval, slots, next, now) && now <= later
    ensures ClockRan(start, interval, slots, next, later)
  {
    hide SlotChain;
  }

  /** One look at the connection clock, which takes the slot when it is due. */
  lemma ClockLook(start: real, interval: real, slots: seq<Slot>, next: real, now: real, at: real)
    requires interval > 0.0 && ClockRan(start, interval, slots, next, now) && 0.0 < now <= at
    ensures var look := Look(at, true);
            var more := if Due(next, at) then [Slot(at, StartedAt(next, at), AfterLook(next, interval, look))] else [];
            ClockRan(start, interval, slots + more, AfterLook(next, interval, look), at)
  {
    hide SlotChain, ValidSlot;
    var look := Look(at, true);
    LookIsValid(next, interval, look);
    if Due(next, at) {
      SlotChainSnoc(slots, Slot(at, StartedAt(next, at), AfterLook(next, interval, look)), interval);
    } else {
      assert slots + [] == slots;
    }
  }

  lemma {:induction false} ChainsJoin(a: seq<Slot>, b: seq<Slot>, interval: real)
    requires SlotChain(a, interval) && SlotChain(b, interval) && a != [] && b != []
    requires b[0].before == a[|a| - 1].after && a[|a| - 1].time <= b[0].time
    ensures SlotChain(a + b, interval)
  {
    hide ValidSlot;
    var last := |b| - 1;
    if last == 0 {
      assert b == [b[0]];
      SlotChainSnoc(a, b[0], interval);
    } else {
      ChainsJoin(a, b[..last], interval);
      assert (a + b[..last])[|a| + last - 1] == b[last - 1];
      SlotChainSnoc(a + b[..last], b[last], interval);
      assert a + b == (a + b[..last]) + [b[last]];
    }
  }

  /** A clock that has run and then runs on. */
  lemma ClockRanOn(start: real, interval: real, slots: seq<Slot>, mid: real, now: real,
                   more: seq<Slot>, next: real, later: real)
    requires ClockRan(start, interval, slots, mid, now) && ClockRan(mid, interval, more, next, later)
    requires now <= later && forall i | 0 <= i < |more| :: now <= more[i].time
    ensures ClockRan(start, interval, slots + more, next, later)
  {
    hide SlotChain;
    if more == [] {
      assert slots + more == slots;
    } else if slots == [] {
      assert slots + more == more;
    } else {
      ChainsJoin(slots, more, interval);
    }
  }

  lemma ChainOfClock(start: real, interval: real, slots: seq<Slot>, next: real, now: real)
    requires ClockRan(start, interval, slots, next, now)
    ensures SlotChain(slots, interval)
  {
  }

  // ---------------------------------------------------------------- bounds

  /** Right after a slot the clock lags at most four intervals behind. */
  lemma BacklogAfterSlot(slots: seq<Slot>, interval: real, i: nat)
    requires interval > 0.0 && SlotChain(slots, interval) && i < |slots|
    ensures slots[i].time - slots[i].after <= interval * 4.0
    ensures slots[i].after >= slots[i].before + interval
  {
    assert ValidSlot(slots[i], interval);
  }

  /** The length of `n` intervals. */
  function Intervals(n: int, interval: real): real {
    n as real * interval
  }

  lemma OneMoreInterval(n: int, interval: real)
    ensures Intervals(n + 1, interval) == Intervals(n, interval) + interval
    ensures Intervals(0, interval) == 0.0
  {
    assert (n + 1) as real == n as real + 1.0;
  }

  lemma FourIntervals(n: int, interval: real)
    ensures Intervals(n, interval) == Intervals(n - 4, interval) + interval * 4.0
  {
    hide Intervals;
    OneMoreInterval(n - 1, interval);
    OneMoreInterval(n - 2, interval);
    OneMoreInterval(n - 3, interval);
    OneMoreInterval(n - 4, interval);
  }

  lemma {:induction false} ClockGrows(slots: seq<Slot>, interval: real, i: nat, j: nat)
    requires interval > 0.0 && SlotChain(slots, interval) && i <= j < |slots|
    ensures slots[j].after >= slots[i].after + Intervals(j - i, interval)
  {
    hide Intervals;
    OneMoreInterval(j - 1 - i, interval);
    if i == j {
    } else {
      ClockGrows(slots, interval, i, j - 1);
      BacklogAfterSlot(slots, interval, j);
      assert slots[j].before == slots[j - 1].after;
    }
  }

  /** Burst bound: k consecutive slots span at least k - 6 intervals, whatever the history,
      the forgiven backlogs included. */
  lemma BurstBound(slots: seq<Slot>, interval: real, i: nat, j: nat)
    requires interval > 0.0 && SlotChain(slots, interval) && i <= j < |slots|
    ensures Intervals(j - i + 1 - 6, interval) <= slots[j].time - slots[i].time
  {
    hide Intervals;
    FourIntervals(j - i - 1, interval);
    if i < j {
      ClockGrows(slots, interval, i, j - 1);
      BacklogAfterSlot(slots, interval, i);
      assert slots[j].before == slots[j - 1].after && ValidSlot(slots[j], interval);
    } else {
      OneMoreInterval(-1, interval);
    }
  }

  /** The same bound read off the looks themselves. */
  lemma BurstBoundOfHistory(start: real, interval: real, looks: seq<Look>, i: nat, j: nat)
    requires start >= 0.0 && interval > 0.0 && Monotone(looks)
    requires i <= j < |SlotsOf(start, interval, looks)|
    ensures var slots := SlotsOf(start, interval, looks);
            Intervals(j - i + 1 - 6, interval) <= slots[j].time - slots[i].time
  {
    HistoryIsChain(start, interval, looks);
    BurstBound(SlotsOf(start, interval, looks), interval, i, j);
  }

  lemma OneMoreLook(start: real, interval: real, looks: seq<Look>, look: Look)
    requires Took(AfterLooks(start, interval, looks), look)
    ensures var next := StartedAt(AfterLooks(start, interval, looks), look.time);
            && AfterLooks(start, interval, looks + [look]) == Advance(next, interval, look.time)
            && SlotsOf(start, interval, looks + [look])
               == SlotsOf(start, interval, looks) + [Slot(look.time, next, Advance(next, interval, look.time))]
  {
    assert (looks + [look])[..|looks|] == looks;
  }

  /** The history grows by one look. */
  lemma LookExtends(start: real, interval: real, looks: seq<Look>, look: Look)
    requires Monotone(looks) && look.time > 0.0 && (looks != [] ==> looks[|looks| - 1].time <= look.time)
    ensures Monotone(looks + [look])
    ensures AfterLooks(start, interval, looks + [look]) == AfterLook(AfterLooks(start, interval, looks), interval, look)
  {
    assert (looks + [look])[..|looks|] == looks;
    forall i, j | 0 <= i < j < |looks| + 1
      ensures (looks + [look])[i].time <= (looks + [look])[j].time
    {
      if j == |looks| {
        assert looks[i].time <= looks[|looks| - 1].time;
      }
    }
  }

  /** Nobody sends on a look at which the clock is not due. */
  ghost predicate OnlyDueUsed(start: real, interval: real, looks: seq<Look>) {
    forall i | 0 <= i < |looks| && looks[i].used :: Due(AfterLooks(start, interval, looks[..i]), looks[i].time)
  }

  lemma OneMoreUsed(start: real, interval: real, looks: seq<Look>, look: Look)
    requires OnlyDueUsed(start, interval, looks)
    requires look.used ==> Due(AfterLooks(start, interval, looks), look.time)
    ensures OnlyDueUsed(start, interval, looks + [look])
  {
    hide AfterLooks, Due;
    var longer := looks + [look];
    forall i | 0 <= i < |longer| && longer[i].used
      ensures Due(AfterLooks(start, interval, longer[..i]), longer[i].time)
    {
      assert longer[..i] == looks[..i];
      assert looks[..|looks|] == looks;
    }
  }

  /** A look at time 10, then `n` looks at time 16. */
  function LateLooks(n: nat): seq<Look> {
    if n == 0 then [Look(10.0, true)] else LateLooks(n - 1) + [Look(16.0, true)]
  }

  lemma {:induction false} LateLooksAreMonotone(n: nat)
    ensures Monotone(LateLooks(n)) && |LateLooks(n)| == n + 1
    ensures forall i | 0 <= i <= n :: LateLooks(n)[i].time == if i == 0 then 10.0 else 16.0
  {
    if n == 0 {
    } else {
      LateLooksAreMonotone(n - 1);
    }
  }

  lemma NoLooks(start: real, interval: real)
    ensures AfterLooks(start, interval, []) == start && SlotsOf(start, interval, []) == []
  {
  }

  lemma {:induction false} LateLooksAllTake(n: nat)
    requires n <= 6
    ensures AfterLooks(0.0, 1.0, LateLooks(n)) == 11.0 + n as real
    ensures |SlotsOf(0.0, 1.0, LateLooks(n))| == n + 1
    ensures forall i | 1 <= i <= n :: SlotsOf(0.0, 1.0, LateLooks(n))[i].time == 16.0
  {
    hide AfterLooks, SlotsOf;
    if n == 0 {
      NoLooks(0.0, 1.0);
      OneMoreLook(0.0, 1.0, [], Look(10.0, true));
      assert [] + [Look(10.0, true)] == LateLooks(0);
    } else {
      LateLooksAllTake(n - 1);
      OneMoreLook(0.0, 1.0, LateLooks(n - 1), Look(16.0, true));
    }
  }

  /** The constant is exact: six slots can fall at one instant. */
  lemma BurstBoundIsTight()
    ensures var slots := SlotsOf(0.0, 1.0, LateLooks(6));
            Monotone(LateLooks(6)) && |slots| == 7 && slots[6].time - slots[1].time == 0.0
  {
    LateLooksAllTake(6);
    LateLooksAreMonotone(6);
  }

  // ---------------------------------------------------------------- messages

  /** What became of a slot: nothing, or a message handed to the transport a while later. */
  datatype Message = NoMessage | SentAt(time: real)

  /** A slot's message is handed over after the slot was taken and before the next one is. */
  ghost predicate HandedOver(slots: seq<Slot>, messages: seq<Message>, now: real) {
    && |messages| == |slots|
    && (forall i | 0 <= i < |slots| && messages[i].SentAt? :: slots[i].time <= messages[i].time <= now)
    && (forall i | 0 <= i < |slots| - 1 && messages[i].SentAt? :: messages[i].time <= slots[i + 1].time)
  }

  lemma HandedOverLater(slots: seq<Slot>, messages: seq<Message>, now: real, later: real)
    requires HandedOver(slots, messages, now) && now <= later
    ensures HandedOver(slots, messages, later)
  {
  }

  lemma NewSlot(slots: seq<Slot>, messages: seq<Message>, now: real, slot: Slot)
    requires HandedOver(slots, messages, now) && now <= slot.time
    ensures HandedOver(slots + [slot], messages + [NoMessage], slot.time)
  {
    forall i | 0 <= i < |slots| && messages[i].SentAt?
      ensures messages[i].time <= (slots + [slot])[i + 1].time
    {
      if i + 1 < |slots| {
        assert (slots + [slot])[i + 1] == slots[i + 1];
      }
    }
  }

  lemma NewMessage(slots: seq<Slot>, messages: seq<Message>, now: real, at: real)
    requires slots != [] && HandedOver(slots, messages, now) && now <= at && slots[|slots| - 1].time <= at
    ensures HandedOver(slots, messages[|messages| - 1 := SentAt(at)], at)
  {
  }

  function Instants(messages: seq<Message>): seq<real> {
    if messages == [] then []
    else
      var last := messages[|messages| - 1];
      Instants(messages[..|messages| - 1]) + if last.SentAt? then [last.time] else []
  }

  /** Messages may bunch up by one more than slots: k of them span at least k - 7 intervals. */
  lemma MessageBurstBound(slots: seq<Slot>, messages: seq<Message>, now: real, interval: real, i: nat, j: nat)
    requires interval > 0.0 && SlotChain(slots, interval) && HandedOver(slots, messages, now)
    requires i <= j < |slots| && messages[i].SentAt? && messages[j].SentAt?
    ensures Intervals(j - i + 1 - 7, interval) <= messages[j].time - messages[i].time
  {
    hide Intervals, SlotChain;
    if i == j {
      OneMoreInterval(-1, interval);
      OneMoreInterval(-2, interval);
      OneMoreInterval(-3, interval);
      OneMoreInterval(-4, interval);
      OneMoreInterval(-5, interval);
      OneMoreInterval(-6, interval);
    } else {
      BurstBound(slots, interval, i + 1, j);
    }
  }

  lemma {:induction false} FirstSlotIsEarly(n: nat)
    requires n <= 6
    ensures |SlotsOf(0.0, 1.0, LateLooks(n))| == n + 1 && SlotsOf(0.0, 1.0, LateLooks(n))[0].time == 10.0
  {
    hide AfterLooks, SlotsOf;
    LateLooksAllTake(n);
    if n == 0 {
      NoLooks(0.0, 1.0);
      OneMoreLook(0.0, 1.0, [], Look(10.0, true));
      assert [] + [Look(10.0, true)] == LateLooks(0);
    } else {
      FirstSlotIsEarly(n - 1);
      LateLooksAllTake(n - 1);
      OneMoreLook(0.0, 1.0, LateLooks(n - 1), Look(16.0, true));
    }
  }

  /** Seven is exact: the message of an early slot can be held up until six more slots fall
      due at once, and then all seven leave together. */
  lemma MessageBurstBoundIsTight()
    ensures var slots := SlotsOf(0.0, 1.0, LateLooks(6));
            var messages := seq(7, _ => SentAt(16.0));
            |slots| == 7 && SlotChain(slots, 1.0) && HandedOver(slots, messages, 16.0)
  {
    hide SlotsOf, LateLooks, SlotChain;
    LateLooksAllTake(6);
    LateLooksAreMonotone(6);
    HistoryIsChain(0.0, 1.0, LateLooks(6));
    FirstSlotIsEarly(6);
  }

  // ---------------------------------------------------------------- drift

  predicate ForgivesBacklog(slot: Slot, interval: real) {
    slot.before + interval + interval * 4.0 < slot.time
  }

  /** A slot forgives the backlog exactly when it would otherwise leave more than four
      intervals of it, and then the clock restarts at the present. */
  lemma ForgivenessIsExact(slots: seq<Slot>, interval: real, i: nat)
    requires interval > 0.0 && SlotChain(slots, interval) && i < |slots|
    ensures ForgivesBacklog(slots[i], interval) <==> slots[i].time - (slots[i].before + interval) > interval * 4.0
    ensures ForgivesBacklog(slots[i], interval) <==> slots[i].after != slots[i].before + interval
    ensures ForgivesBacklog(slots[i], interval) ==> slots[i].after == slots[i].time
  {
    assert ValidSlot(slots[i], interval);
  }

  /** No drift: over a stretch of slots that forgives nothing the clock has advanced by
      exactly one interval per slot. */
  lemma {:induction false} NoDrift(slots: seq<Slot>, interval: real, i: nat, j: nat)
    requires interval > 0.0 && SlotChain(slots, interval) && i <= j < |slots|
    requires forall k | i <= k <= j :: !ForgivesBacklog(slots[k], interval)
    ensures slots[j].after == slots[i].before + Intervals(j - i + 1, interval)
  {
    hide Intervals;
    ForgivenessIsExact(slots, interval, j);
    OneMoreInterval(j - i, interval);
    if i == j {
    } else {
      NoDrift(slots, interval, i, j - 1);
      assert slots[j].before == slots[j - 1].after;
    }
  }
}
