/** Total-rate mode of the QUIC client: every sending connection paces itself with the
    interval 1e9 * active / pps, and together they respect the configured rate. */
module AggregateRate {
  import opened Pacing
  import opened Distribution
  import opened Configuration
  import opened QuicClient

  predicate InWindow(m: Message, from: real, width: real) {
    m.SentAt? && from <= m.time <= from + width
  }

  function MessagesIn(messages: seq<Message>, from: real, width: real): nat {
    if messages == [] then 0
    else
      var last := |messages| - 1;
      MessagesIn(messages[..last], from, width) + if InWindow(messages[last], from, width) then 1 else 0
  }

  /** The messages of a window lie between a first and a last one. */
  lemma {:induction false} FirstAndLast(messages: seq<Message>, from: real, width: real) returns (i: nat, j: nat)
    requires MessagesIn(messages, from, width) > 0
    ensures i <= j < |messages| && InWindow(messages[i], from, width) && InWindow(messages[j], from, width)
    ensures MessagesIn(messages, from, width) <= j - i + 1
  {
    hide InWindow;
    var earlier, last := messages[..|messages| - 1], |messages| - 1;
    if InWindow(messages[last], from, width) {
      i, j := last, last;
      if MessagesIn(earlier, from, width) > 0 {
        var k;
        i, k := FirstAndLast(earlier, from, width);
      }
    } else {
      i, j := FirstAndLast(earlier, from, width);
    }
  }

  lemma {:induction false} IntervalsGrow(m: int, n: int, interval: real)
    requires interval > 0.0 && m <= n
    ensures Intervals(m, interval) <= Intervals(n, interval)
    decreases n - m
  {
    hide Intervals;
    if m == n {
    } else {
      IntervalsGrow(m, n - 1, interval);
      OneMoreInterval(n - 1, interval);
    }
  }

  lemma PerInterval(n: int, interval: real, width: real)
    requires interval > 0.0 && Intervals(n, interval) <= width
    ensures n as real <= width / interval
  {
    var x := n as real;
    assert x == (x * interval) / interval;
  }

  /** The slots as if each one's message left at once. */
  function AtOnce(slots: seq<Slot>): (messages: seq<Message>)
    ensures |messages| == |slots|
    ensures forall i | 0 <= i < |slots| :: messages[i] == SentAt(slots[i].time)
  {
    seq(|slots|, i requires 0 <= i < |slots| => SentAt(slots[i].time))
  }

  /** One connection: in any window of the given width at most width / interval + 6 slots. */
  lemma SlotsInWindow(slots: seq<Slot>, interval: real, from: real, width: real)
    requires interval > 0.0 && width >= 0.0 && SlotChain(slots, interval)
    ensures (MessagesIn(AtOnce(slots), from, width) as real) <= width / interval + 6.0
  {
    hide SlotChain, Intervals;
    var count: int := MessagesIn(AtOnce(slots), from, width);
    assert width / interval >= 0.0;
    if count > 0 {
      var i, j := FirstAndLast(AtOnce(slots), from, width);
      BurstBound(slots, interval, i, j);
      var span: int := j - i + 1;
      IntervalsGrow(count - 6, span - 6, interval);
      PerInterval(count - 6, interval, width);
    }
  }

  /** Counted when they are handed to the transport, at most width / interval + 7 messages. */
  lemma MessagesInWindow(slots: seq<Slot>, messages: seq<Message>, now: real, interval: real, from: real, width: real)
    requires interval > 0.0 && width >= 0.0 && SlotChain(slots, interval) && HandedOver(slots, messages, now)
    ensures (MessagesIn(messages, from, width) as real) <= width / interval + 7.0
  {
    hide SlotChain, Intervals;
    var count: int := MessagesIn(messages, from, width);
    assert width / interval >= 0.0;
    if count > 0 {
      var i, j := FirstAndLast(messages, from, width);
      MessageBurstBound(slots, messages, now, interval, i, j);
      var span: int := j - i + 1;
      IntervalsGrow(count - 7, span - 7, interval);
      PerInterval(count - 7, interval, width);
    }
  }

  // ---------------------------------------------------------------- all connections

  /** The connections of one client, in the order of their indices, each in whatever state
      its calls and callbacks have brought it to. */
  ghost predicate OneClient(o: Options, connections: seq<QuicConnection>)
    reads connections
  {
    && |connections| <= o.clientCount
    && forall i | 0 <= i < |connections| ::
         connections[i].Valid() && connections[i].options == o && connections[i].index == i
  }

  /** How many messages all connections have handed over in a window. */
  ghost function SentIn(connections: seq<QuicConnection>, from: real, width: real): nat
    reads connections
  {
    if connections == [] then 0
    else
      var last := |connections| - 1;
      SentIn(connections[..last], from, width) + MessagesIn(connections[last].messages, from, width)
  }

  /** What `n` connections may hand over if each may hand over `each`. */
  function Times(n: nat, each: real): real {
    n as real * each
  }

  /** What one sending connection may hand over in a window. */
  function PerConnection(o: Options, width: real): real
    requires o.serverCount > 0 && QuicInterval(TotalPps, o, ActiveCount(o)) > 0.0
  {
    width / QuicInterval(TotalPps, o, ActiveCount(o)) + 7.0
  }

  lemma ConnectionRate(c: QuicConnection, from: real, width: real)
    requires c.Valid() && Mode(c.options) == TotalPps && width >= 0.0 && c.shouldSend
    ensures QuicInterval(TotalPps, c.options, ActiveCount(c.options)) > 0.0
    ensures (MessagesIn(c.messages, from, width) as real) <= PerConnection(c.options, width)
  {
    hide HandedOver, SlotChain, ActiveCount, ShouldSend;
    IntervalsArePositive(c.options, c.index);
    ChainOfClock(0.0, c.interval, c.slots, c.nextSendTime, c.clock as real);
    MessagesInWindow(c.slots, c.messages, c.clock as real, c.interval, from, width);
  }

  lemma SilentConnection(c: QuicConnection, from: real, width: real)
    requires c.Valid() && !c.shouldSend
    ensures MessagesIn(c.messages, from, width) == 0
  {
    hide ActiveCount, ShouldSend;
    c.SlotsMatchMessages();
    assert c.messages == [];
  }

  lemma OneFewer(o: Options, connections: seq<QuicConnection>)
    requires OneClient(o, connections) && connections != []
    ensures OneClient(o, connections[..|connections| - 1])
  {
    var n := |connections| - 1;
    assert forall i | 0 <= i < n :: connections[..n][i] == connections[i];
  }

  lemma LastOfClient(o: Options, connections: seq<QuicConnection>)
    requires o.serverCount > 0 && OneClient(o, connections) && connections != []
    ensures var c := connections[|connections| - 1];
            c.Valid() && c.options == o && c.index == |connections| - 1 && c.shouldSend == Sends(o, c.index)
  {
    hide ShouldSend, ActiveCount, SendingIds;
  }

  lemma NoneAtAll(each: real)
    ensures Times(0, each) == 0.0
  {
  }

  lemma RateAdds(sent: nat, more: nat, n: nat, sends: bool, each: real)
    requires sent as real <= Times(n, each)
    requires if sends then more as real <= each else more == 0
    ensures (sent + more) as real <= Times(n + if sends then 1 else 0, each)
  {
    assert (n + 1) as real * each == n as real * each + each;
  }

  lemma {:induction false} SentByPrefix(o: Options, connections: seq<QuicConnection>, from: real, width: real,
      each: real)
    requires ValidOptions(o) && Mode(o) == TotalPps && width >= 0.0 && OneClient(o, connections)
    requires QuicInterval(TotalPps, o, ActiveCount(o)) > 0.0 && each == PerConnection(o, width)
    ensures SentIn(connections, from, width) as real
         <= Times(|SendingIds(|connections|, o.serverCount, o.sendServerIndex)|, each)
  {
    hide ShouldSend, SendingIds, QuicInterval, PerConnection, Mode, MessagesIn, OneClient, QuicConnection.Valid,
        ActiveCount, Times;
    NoneAtAll(each);
    OneMoreId(0, o.serverCount, o.sendServerIndex);
    if connections == [] {
      assert SentIn(connections, from, width) == 0;
    } else {
      var n := |connections| - 1;
      OneFewer(o, connections);
      LastOfClient(o, connections);
      SentByPrefix(o, connections[..n], from, width, each);
      OneMoreId(n, o.serverCount, o.sendServerIndex);
      var c := connections[n];
      if c.shouldSend {
        ConnectionRate(c, from, width);
      } else {
        SilentConnection(c, from, width);
      }
      RateAdds(SentIn(connections[..n], from, width), MessagesIn(c.messages, from, width),
               |SendingIds(n, o.serverCount, o.sendServerIndex)|, c.shouldSend, each);
    }
  }

  lemma NobodyIsActive(o: Options, id: nat)
    requires o.serverCount > 0 && id < o.clientCount && ActiveCount(o) == 0
    ensures !Sends(o, id)
  {
    hide ActiveCount, Sends;
    if Sends(o, id) {
      SenderIsActive(o, id);
      assert false;
    }
  }

  lemma {:induction false} NobodySends(o: Options, connections: seq<QuicConnection>, from: real, width: real)
    requires ValidOptions(o) && OneClient(o, connections) && ActiveCount(o) == 0
    ensures SentIn(connections, from, width) == 0
  {
    hide ActiveCount, Sends, MessagesIn;
    if connections == [] {
    } else {
      var n := |connections| - 1;
      OneFewer(o, connections);
      NobodySends(o, connections[..n], from, width);
      NobodyIsActive(o, n);
      SilentConnection(connections[n], from, width);
    }
  }

  /** `active` connections with the interval 1e9 * active / pps amount to the rate pps. */
  lemma RateOfInterval(pps: nat, active: nat, width: real)
    requires pps > 0 && active > 0
    ensures var interval := (1_000_000_000.0 * (active as real)) / (pps as real);
            && interval > 0.0
            && (active as real) * (width / interval + 7.0)
               == width * (pps as real) / 1_000_000_000.0 + 7.0 * (active as real)
  {
    var a, p, g := active as real, pps as real, 1_000_000_000.0;
    var interval := (g * a) / p;
    assert interval > 0.0;
    assert interval * p == g * a;
    var x := width / interval;
    assert x * interval == width;
    assert (a * x) * g == (x * interval) * p;
    assert a * x == width * p / g;
  }

  lemma RateOfAll(o: Options, width: real)
    requires ValidOptions(o) && Mode(o) == TotalPps && ActiveCount(o) > 0
    ensures QuicInterval(TotalPps, o, ActiveCount(o)) > 0.0
    ensures Times(ActiveCount(o), PerConnection(o, width))
         == width * (o.sendPps as real) / 1_000_000_000.0 + 7.0 * (ActiveCount(o) as real)
  {
    hide ActiveCount;
    RateOfInterval(o.sendPps, ActiveCount(o), width);
  }

  lemma {:induction false} FewerIds(n: nat, m: nat, serverCount: nat, sendServerIndex: int)
    requires serverCount > 0 && n <= m
    ensures |SendingIds(n, serverCount, sendServerIndex)| <= |SendingIds(m, serverCount, sendServerIndex)|
    decreases m - n
  {
    hide SendingIds, ShouldSend;
    if n == m {
    } else {
      FewerIds(n, m - 1, serverCount, sendServerIndex);
      OneMoreId(m - 1, serverCount, sendServerIndex);
    }
  }

  lemma NoRate(pps: nat, width: real)
    requires width >= 0.0
    ensures 0.0 <= width * (pps as real) / 1_000_000_000.0
  {
    assert width * (pps as real) >= 0.0;
  }

  lemma PerConnectionIsPositive(o: Options, width: real)
    requires o.serverCount > 0 && QuicInterval(TotalPps, o, ActiveCount(o)) > 0.0 && width >= 0.0
    ensures PerConnection(o, width) >= 0.0
  {
    hide QuicInterval, ActiveCount;
  }

  lemma FewerConnections(o: Options, connections: seq<QuicConnection>)
    requires o.serverCount > 0 && OneClient(o, connections)
    ensures |SendingIds(|connections|, o.serverCount, o.sendServerIndex)| <= ActiveCount(o)
  {
    FewerIds(|connections|, o.clientCount, o.serverCount, o.sendServerIndex);
  }

  lemma LargerFactor(n: nat, m: nat, each: real)
    requires n <= m && each >= 0.0
    ensures Times(n, each) <= Times(m, each)
  {
    assert (m - n) as real * each >= 0.0;
    assert m as real == n as real + (m - n) as real;
  }

  /** In total-rate mode the client hands over, in any window of `width` nanoseconds, at most
      width * pps / 1e9 messages plus seven per sending connection, whatever its connections
      have gone through. */
  lemma AggregateRateBound(o: Options, connections: seq<QuicConnection>, from: real, width: real)
    requires ValidOptions(o) && Mode(o) == TotalPps && width >= 0.0 && OneClient(o, connections)
    ensures SentIn(connections, from, width) as real
         <= width * (o.sendPps as real) / 1_000_000_000.0 + 7.0 * (ActiveCount(o) as real)
  {
    hide OneClient, ActiveCount, Mode, QuicInterval, PerConnection, SentIn, SendingIds, Times;
    if ActiveCount(o) == 0 {
      NobodySends(o, connections, from, width);
      NoRate(o.sendPps, width);
    } else {
      RateOfAll(o, width);
      var each := PerConnection(o, width);
      SentByPrefix(o, connections, from, width, each);
      FewerConnections(o, connections);
      PerConnectionIsPositive(o, width);
      var n, m := |SendingIds(|connections|, o.serverCount, o.sendServerIndex)|, ActiveCount(o);
      LargerFactor(n, m, each);
    }
  }
}
