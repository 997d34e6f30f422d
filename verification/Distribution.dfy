/** How connections are spread over servers, which of them send, and how their first sends
    are staggered over one pacing interval. */
module Distribution {
  import opened Wire
  import opened Sums

  /** A negative index selects every connection. */
  predicate ShouldSend(id: nat, serverCount: nat, sendServerIndex: int)
    requires serverCount > 0
  {
    sendServerIndex < 0 || id % serverCount == sendServerIndex
  }

  function SendingIds(n: nat, serverCount: nat, sendServerIndex: int): set<nat>
    requires serverCount > 0
  {
    set id: nat | id < n && ShouldSend(id, serverCount, sendServerIndex)
  }

  lemma OneMoreId(n: nat, serverCount: nat, sendServerIndex: int)
    requires serverCount > 0
    ensures |SendingIds(0, serverCount, sendServerIndex)| == 0
    ensures |SendingIds(n + 1, serverCount, sendServerIndex)|
         == |SendingIds(n, serverCount, sendServerIndex)| + if ShouldSend(n, serverCount, sendServerIndex) then 1 else 0
  {
    hide ShouldSend;
    assert SendingIds(0, serverCount, sendServerIndex) == {};
    var ids, more := SendingIds(n, serverCount, sendServerIndex), SendingIds(n + 1, serverCount, sendServerIndex);
    if ShouldSend(n, serverCount, sendServerIndex) {
      assert more == ids + {n};
    } else {
      assert more == ids;
    }
  }

  lemma {:induction false} EveryIdSends(n: nat, serverCount: nat, sendServerIndex: int)
    requires serverCount > 0 && sendServerIndex < 0
    ensures |SendingIds(n, serverCount, sendServerIndex)| == n
  {
    if n > 0 {
      EveryIdSends(n - 1, serverCount, sendServerIndex);
      OneMoreId(n - 1, serverCount, sendServerIndex);
    } else {
      OneMoreId(0, serverCount, sendServerIndex);
    }
  }

  /** The counting loop counts the sending connections. */
  method ActiveSendConnectionCount(clientCount: nat, serverCount: nat, sendServerIndex: int) returns (count: nat)
    requires serverCount > 0
    ensures count == |SendingIds(clientCount, serverCount, sendServerIndex)|
  {
    hide SendingIds;
    if clientCount == 0 {
      OneMoreId(0, serverCount, sendServerIndex);
      return 0;
    }
    if sendServerIndex < 0 {
      EveryIdSends(clientCount, serverCount, sendServerIndex);
      return clientCount;
    }
    count := 0;
    OneMoreId(0, serverCount, sendServerIndex);
    for i := 0 to clientCount
      invariant count == |SendingIds(i, serverCount, sendServerIndex)|
    {
      OneMoreId(i, serverCount, sendServerIndex);
      if i % serverCount == sendServerIndex {
        count := count + 1;
      }
    }
  }

  // ---------------------------------------------------------------- closed form and balance

  /** How many of the connections 0, ..., n-1 go to server `j`. */
  function Share(n: nat, serverCount: nat, j: nat): nat
    requires serverCount > 0
  {
    n / serverCount + if j < n % serverCount then 1 else 0
  }

  lemma QuotientUnique(a: int, d: int, k: int, m: int)
    requires a == d * k + m && 0 <= m < d
    ensures a / d == k
  {
    RemainderUnique(a, d, k, m);
    assert d * (a / d) == d * k;
    var x := a / d - k;
    assert d * x == 0;
    MultipleExceeds(d, x);
    MultipleExceeds(d, -x);
  }

  lemma DivModSucc(n: nat, d: nat)
    requires d > 0
    ensures if n % d + 1 == d then (n + 1) / d == n / d + 1 && (n + 1) % d == 0
            else (n + 1) / d == n / d && (n + 1) % d == n % d + 1
  {
    var q, r := n / d, n % d;
    assert n == d * q + r;
    if r + 1 == d {
      assert n + 1 == d * (q + 1) + 0;
      RemainderUnique(n + 1, d, q + 1, 0);
      QuotientUnique(n + 1, d, q + 1, 0);
    } else {
      RemainderUnique(n + 1, d, q, r + 1);
      QuotientUnique(n + 1, d, q, r + 1);
    }
  }

  lemma ShareSucc(n: nat, serverCount: nat, j: nat)
    requires serverCount > 0 && j < serverCount
    ensures Share(n + 1, serverCount, j) == Share(n, serverCount, j) + if n % serverCount == j then 1 else 0
    ensures Share(0, serverCount, j) == 0
  {
    DivModSucc(n, serverCount);
    QuotientUnique(0, serverCount, 0, 0);
  }

  /** The counting loop agrees with the closed form. */
  lemma {:induction false} CountIsShare(n: nat, serverCount: nat, j: nat)
    requires serverCount > 0 && j < serverCount
    ensures |SendingIds(n, serverCount, j)| == Share(n, serverCount, j)
  {
    hide Share, SendingIds;
    OneMoreId(0, serverCount, j);
    ShareSucc(0, serverCount, j);
    if n == 0 {
    } else {
      CountIsShare(n - 1, serverCount, j);
      OneMoreId(n - 1, serverCount, j);
      ShareSucc(n - 1, serverCount, j);
    }
  }

  function Shares(n: nat, serverCount: nat): (row: seq<nat>)
    requires serverCount > 0
    ensures |row| == serverCount
  {
    seq(serverCount, j requires 0 <= j < serverCount => Share(n, serverCount, j))
  }

  /** Every connection goes to exactly one server: the shares add up to the total. */
  lemma {:induction false} SharesAddUp(n: nat, serverCount: nat)
    requires serverCount > 0
    ensures Sum(Shares(n, serverCount)) == n
  {
    hide Share;
    if n == 0 {
      forall j | 0 <= j < serverCount
        ensures Shares(0, serverCount)[j] == 0
      {
        ShareSucc(0, serverCount, j);
      }
      SumOfZeros(Shares(0, serverCount));
    } else {
      SharesAddUp(n - 1, serverCount);
      var row, s := Shares(n - 1, serverCount), (n - 1) % serverCount;
      forall j | 0 <= j < serverCount
        ensures Shares(n, serverCount)[j] == Raise(row, s, 1)[j]
      {
        ShareSucc(n - 1, serverCount, j);
      }
      assert Shares(n, serverCount) == Raise(row, s, 1);
      SumRaise(row, s, 1);
    }
  }

  /** No two servers' shares differ by more than one. */
  lemma SharesAreEven(n: nat, serverCount: nat, i: nat, j: nat)
    requires serverCount > 0 && i < serverCount && j < serverCount
    ensures |SendingIds(n, serverCount, i)| <= |SendingIds(n, serverCount, j)| + 1
  {
    CountIsShare(n, serverCount, i);
    CountIsShare(n, serverCount, j);
  }

  // ---------------------------------------------------------------- staggering

  /** The rank of a connection among the sending ones, as the counting loop finds it. */
  function Rank(id: nat, serverCount: nat, sendServerIndex: int): nat
    requires serverCount > 0
  {
    |SendingIds(id, serverCount, sendServerIndex)|
  }

  function Phase(id: nat, active: nat, interval: real, serverCount: nat, sendServerIndex: int): real
    requires serverCount > 0 && active > 0
  {
    interval / (active as real) * ((Rank(id, serverCount, sendServerIndex) % active) as real)
  }

  method InitialPerClientSendTime(id: nat, active: nat, interval: real, serverCount: nat, sendServerIndex: int,
      now: real)
    returns (time: real)
    requires serverCount > 0
    ensures time == if active <= 1 || interval <= 0.0 then now
                    else now + Phase(id, active, interval, serverCount, sendServerIndex)
  {
    if active <= 1 || interval <= 0.0 {
      return now;
    }
    var ordinal := 0;
    OneMoreId(0, serverCount, sendServerIndex);
    for other := 0 to id
      invariant ordinal == |SendingIds(other, serverCount, sendServerIndex)|
    {
      OneMoreId(other, serverCount, sendServerIndex);
      if ShouldSend(other, serverCount, sendServerIndex) {
        ordinal := ordinal + 1;
      }
    }
    var step := interval / (active as real);
    time := now + (step * ((ordinal % active) as real));
  }

  lemma {:induction false} RankGrows(id: nat, later: nat, serverCount: nat, sendServerIndex: int)
    requires serverCount > 0 && id < later && ShouldSend(id, serverCount, sendServerIndex)
    ensures Rank(id, serverCount, sendServerIndex) < Rank(later, serverCount, sendServerIndex)
    decreases later
  {
    hide ShouldSend, SendingIds;
    OneMoreId(later - 1, serverCount, sendServerIndex);
    if id == later - 1 {
    } else {
      RankGrows(id, later - 1, serverCount, sendServerIndex);
    }
  }

  lemma {:induction false} MultiplesAreDistinct(step: real, a: nat, b: nat)
    requires step > 0.0 && a < b
    ensures step * (a as real) < step * (b as real)
  {
    assert step * (b as real) - step * (a as real) == step * ((b - a) as real);
  }

  lemma PhaseOfSender(id: nat, clientCount: nat, interval: real, serverCount: nat, sendServerIndex: int)
    requires serverCount > 0 && interval > 0.0 && id < clientCount && ShouldSend(id, serverCount, sendServerIndex)
    ensures var active := |SendingIds(clientCount, serverCount, sendServerIndex)|;
            var rank := Rank(id, serverCount, sendServerIndex);
            && rank < active
            && Phase(id, active, interval, serverCount, sendServerIndex) == interval / (active as real) * (rank as real)
            && 0.0 <= Phase(id, active, interval, serverCount, sendServerIndex) < interval
  {
    hide ShouldSend, SendingIds;
    var active := |SendingIds(clientCount, serverCount, sendServerIndex)|;
    var rank := Rank(id, serverCount, sendServerIndex);
    RankGrows(id, clientCount, serverCount, sendServerIndex);
    RemainderUnique(rank, active, 0, rank);
    var step := interval / (active as real);
    assert step > 0.0 && step * (active as real) == interval;
    MultiplesAreDistinct(step, rank, active);
    if rank > 0 {
      MultiplesAreDistinct(step, 0, rank);
    }
  }

  lemma PhaseIsNonNegative(id: nat, active: nat, interval: real, serverCount: nat, sendServerIndex: int)
    requires serverCount > 0 && active > 0 && interval > 0.0
    ensures Phase(id, active, interval, serverCount, sendServerIndex) >= 0.0
  {
    hide Rank;
    assert interval / (active as real) > 0.0;
  }

  /** Distinct sending connections start at distinct phases within one interval. */
  lemma PhasesAreDistinct(id: nat, other: nat, clientCount: nat, interval: real, serverCount: nat, sendServerIndex: int)
    requires serverCount > 0 && interval > 0.0 && id < other < clientCount
    requires ShouldSend(id, serverCount, sendServerIndex) && ShouldSend(other, serverCount, sendServerIndex)
    ensures var active := |SendingIds(clientCount, serverCount, sendServerIndex)|;
            && active > 0
            && 0.0 <= Phase(id, active, interval, serverCount, sendServerIndex)
                   < Phase(other, active, interval, serverCount, sendServerIndex) < interval
  {
    hide ShouldSend, SendingIds, Phase;
    PhaseOfSender(id, clientCount, interval, serverCount, sendServerIndex);
    PhaseOfSender(other, clientCount, interval, serverCount, sendServerIndex);
    RankGrows(id, other, serverCount, sendServerIndex);
    var active := |SendingIds(clientCount, serverCount, sendServerIndex)|;
    MultiplesAreDistinct(interval / (active as real), Rank(id, serverCount, sendServerIndex),
        Rank(other, serverCount, sendServerIndex));
  }
}
