/** Closing down a connection of the QUIC client. Callbacks first change a stream under its
    own lock and then, in a client without a pacer, call PumpSends under the connection's;
    a pacer calls it all the time; RequestStopSending raises the stop flag and calls it as
    well. PumpSends is taken apart into its looks at the flag, the messages it builds, its
    decision and the shutdowns that follow, and everything interleaves freely. */
module QuicClosing {
  import opened Wire
  import opened Window
  import opened QuicStreams

  datatype Config = Config(profiles: seq<Profile>, paced: bool)

  /** How far the PumpSends call has got that holds the lock, if there is one: the stop flag
      has not been looked at, has been seen clear, or a message has been built since; or the
      call is past its decision and has the streams from `next` on still to look at. */
  datatype Progress = Free | Entered | Going | Built | Shutting(next: nat)

  /** `owed` counts the PumpSends calls threads are about to make. */
  datatype Closing = Closing(streams: seq<QuicStream>, stop: bool, owed: nat, progress: Progress)

  datatype Event =
    | Start(stream: nat)              // START_COMPLETE
    | Echo(stream: nat, count: nat)   // RECEIVE, its locked region
    | Close(stream: nat)              // SHUTDOWN_COMPLETE, which calls no PumpSends
    | RaiseStop                       // RequestStopSending
    | PacerTurn
    | Enter                           // a PumpSends call takes the lock
    | Look                            // it finds the stop flag clear
    | Build(stream: nat)              // it builds a message
    | Refuse                          // the message is refused and the call returns
    | Decline                         // it finds no reason to shut down
    | Decide                          // it finds the stop flag and every stream settled
    | ShutNext
    | Finish

  predicate AllSettled(c: Closing) {
    forall s | 0 <= s < |c.streams| :: Settled(c.streams[s])
  }

  predicate SomeUnshut(c: Closing) {
    exists s | 0 <= s < |c.streams| :: Unshut(c.streams[s])
  }

  predicate SomeShut(c: Closing) {
    exists s | 0 <= s < |c.streams| :: c.streams[s].shutdownStarted
  }

  /** A call holds the lock and has not decided yet. */
  predicate BeforeDecision(c: Closing) {
    c.progress.Entered? || c.progress.Going? || c.progress.Built?
  }

  /** A stream reports its start once and its close last. Something arrives on it only while
      echoes are outstanding, or after its shutdown, which the server answers. A stream may
      be closed between its selection and its message. */
  predicate Possible(cfg: Config, c: Closing, e: Event) {
    match e
    case Start(s) => s < |c.streams| && !c.streams[s].started && !c.streams[s].closed
    case Echo(s, n) =>
      && s < |c.streams| && !c.streams[s].closed && n <= Outstanding(c.streams[s].counters)
      && (Outstanding(c.streams[s].counters) > 0 || c.streams[s].shutdownStarted)
    case Close(s) => s < |c.streams| && !c.streams[s].closed
    case RaiseStop => !c.stop
    case PacerTurn => cfg.paced
    case Enter => c.owed > 0 && c.progress.Free?
    case Look => (c.progress.Entered? || c.progress.Built?) && !c.stop
    case Build(s) =>
      && c.progress.Going? && s < |c.streams| && s < |cfg.profiles|
      && c.streams[s].started && !c.streams[s].shutdownStarted && WindowOpen(cfg.profiles[s], c.streams[s].counters)
    case Refuse => c.progress.Built?
    case Decline => BeforeDecision(c) && !(c.stop && AllSettled(c))
    case Decide => BeforeDecision(c) && c.stop && AllSettled(c)
    case ShutNext => c.progress.Shutting? && c.progress.next < |c.streams|
    case Finish => c.progress.Shutting? && c.progress.next >= |c.streams|
  }

  function Set(c: Closing, s: nat, x: QuicStream): (r: Closing)
    requires s < |c.streams|
    ensures |r.streams| == |c.streams|
  {
    c.(streams := c.streams[s := x])
  }

  /** A callback calls PumpSends only in a client without a pacer. */
  function Owe(cfg: Config, c: Closing): Closing {
    if cfg.paced then c else c.(owed := c.owed + 1)
  }

  function Step(cfg: Config, c: Closing, e: Event): (r: Closing)
    requires Possible(cfg, c, e)
    ensures |r.streams| == |c.streams|
  {
    match e
    case Start(s) => Owe(cfg, Set(c, s, c.streams[s].(started := true)))
    case Echo(s, n) => Owe(cfg, Set(c, s, c.streams[s].(counters := CountEchoed(c.streams[s].counters, n))))
    case Close(s) => Set(c, s, c.streams[s].(closed := true))
    case RaiseStop => c.(stop := true, owed := c.owed + 1)
    case PacerTurn => c.(owed := c.owed + 1)
    case Enter => c.(owed := c.owed - 1, progress := Entered)
    case Look => c.(progress := Going)
    case Build(s) => Set(c, s, c.streams[s].(counters := CountBuilt(c.streams[s].counters))).(progress := Built)
    case Refuse => c.(progress := Free)
    case Decline => c.(progress := Free)
    case Decide => c.(progress := Shutting(0))
    case ShutNext =>
      var k := c.progress.next;
      var x := c.streams[k];
      Set(c, k, if Unshut(x) then x.(shutdownStarted := true) else x).(progress := Shutting(k + 1))
    case Finish => c.(progress := Free)
  }

  /** After a stop every stream is settled, one is still to be shut down, and no thread is
      about to call PumpSends or in it. */
  predicate Stranded(c: Closing) {
    c.stop && AllSettled(c) && SomeUnshut(c) && c.owed == 0 && c.progress.Free?
  }

  /** The transport closes the only stream with echoes outstanding, while another one is
      still to be shut down and nobody is about to call PumpSends or in it. */
  predicate StrandingClose(c: Closing, e: Event) {
    && e.Close? && e.stream < |c.streams| && c.stop && c.owed == 0 && c.progress.Free?
    && !Settled(c.streams[e.stream])
    && (forall s | 0 <= s < |c.streams| && s != e.stream :: Settled(c.streams[s]))
    && exists s | 0 <= s < |c.streams| && s != e.stream :: Unshut(c.streams[s])
  }

  // ---------------------------------------------------------------- the invariant

  /** A flag raised behind the back of a sending call brings another call. */
  predicate StopIsNoticed(c: Closing) {
    c.stop && (c.progress.Going? || c.progress.Built?) ==> c.owed > 0
  }

  /** Nothing is built and nothing is waited for once streams are being shut down. */
  predicate ShutdownIsLast(c: Closing) {
    SomeShut(c) || c.progress.Shutting? ==> c.stop && AllSettled(c) && !c.progress.Going? && !c.progress.Built?
  }

  /** Streams that start while others are being shut down bring a call of their own. */
  predicate NoneOverlooked(c: Closing) {
    && (c.progress.Shutting? && c.owed == 0 ==>
          forall s | 0 <= s < |c.streams| && s < c.progress.next :: !Unshut(c.streams[s]))
    && (c.progress.Free? && c.owed == 0 && SomeShut(c) ==> !SomeUnshut(c))
  }

  predicate CountersInRange(c: Closing) {
    forall s | 0 <= s < |c.streams| :: c.streams[s].counters.echoedMessages < TWO_TO_64
  }

  predicate Inv(cfg: Config, c: Closing) {
    && CountersInRange(c) && StopIsNoticed(c) && ShutdownIsLast(c)
    && (!cfg.paced ==> NoneOverlooked(c))
  }

  lemma StepKeepsRange(cfg: Config, c: Closing, e: Event)
    requires CountersInRange(c) && Possible(cfg, c, e)
    ensures CountersInRange(Step(cfg, c, e))
  {
    hide Outstanding, WindowOpen, AllSettled;
  }

  lemma StepNoticesStop(cfg: Config, c: Closing, e: Event)
    requires StopIsNoticed(c) && Possible(cfg, c, e)
    ensures StopIsNoticed(Step(cfg, c, e))
  {
    hide Outstanding, WindowOpen, AllSettled, CountEchoed, CountBuilt, Unshut;
  }

  lemma EchoKeepsSettled(x: QuicStream, n: nat)
    requires x.counters.echoedMessages < TWO_TO_64 && n <= Outstanding(x.counters) && Settled(x)
    ensures Settled(x.(counters := CountEchoed(x.counters, n)))
  {
  }

  lemma ShuttingKeepsSettled(x: QuicStream)
    ensures Settled(x.(shutdownStarted := true)) == Settled(x) == Settled(x.(started := true))
    ensures Settled(x.(closed := true))
  {
  }

  /** Only a message built makes a settled stream wait again. */
  lemma StepKeepsSettled(cfg: Config, c: Closing, e: Event)
    requires CountersInRange(c) && Possible(cfg, c, e) && !e.Build?
    ensures forall s | 0 <= s < |c.streams| && Settled(c.streams[s]) :: Settled(Step(cfg, c, e).streams[s])
  {
    hide Settled, Outstanding, CountEchoed, WindowOpen, AllSettled;
    match e
    case Start(s) => ShuttingKeepsSettled(c.streams[s]);
    case Echo(s, n) => if Settled(c.streams[s]) { EchoKeepsSettled(c.streams[s], n); }
    case Close(s) => ShuttingKeepsSettled(c.streams[s]);
    case ShutNext => ShuttingKeepsSettled(c.streams[c.progress.next]);
    case _ =>
  }

  lemma StepKeepsShutdownLast(cfg: Config, c: Closing, e: Event)
    requires CountersInRange(c) && ShutdownIsLast(c) && Possible(cfg, c, e)
    ensures ShutdownIsLast(Step(cfg, c, e))
  {
    hide Settled, Outstanding, CountEchoed, CountBuilt, WindowOpen;
    var c' := Step(cfg, c, e);
    if !e.Build? {
      StepKeepsSettled(cfg, c, e);
      assert AllSettled(c) ==> AllSettled(c');
    }
    assert SomeShut(c') ==> SomeShut(c) || c.progress.Shutting? by {
      if SomeShut(c') {
        var s :| 0 <= s < |c'.streams| && c'.streams[s].shutdownStarted;
        assert c.streams[s].shutdownStarted || c.progress.Shutting?;
      }
    }
  }

  lemma CloseUnshutsNothing(c: Closing, s: nat)
    requires s < |c.streams|
    ensures var c' := Set(c, s, c.streams[s].(closed := true));
            && (forall o | 0 <= o < |c.streams| :: Unshut(c'.streams[o]) ==> Unshut(c.streams[o]))
            && SomeShut(c') == SomeShut(c) && (SomeUnshut(c') ==> SomeUnshut(c))
  {
    var c' := Set(c, s, c.streams[s].(closed := true));
    assert forall o | 0 <= o < |c.streams| :: c'.streams[o].shutdownStarted == c.streams[o].shutdownStarted;
    if SomeShut(c) {
      var o :| 0 <= o < |c.streams| && c.streams[o].shutdownStarted;
      assert c'.streams[o].shutdownStarted;
    }
  }

  lemma StepOverlooksNone(cfg: Config, c: Closing, e: Event)
    requires !cfg.paced && ShutdownIsLast(c) && StopIsNoticed(c) && NoneOverlooked(c) && Possible(cfg, c, e)
    ensures NoneOverlooked(Step(cfg, c, e))
  {
    hide Settled, Outstanding, CountEchoed, CountBuilt, WindowOpen, AllSettled;
    var c' := Step(cfg, c, e);
    if e.Close? {
      CloseUnshutsNothing(c, e.stream);
    }
  }

  lemma StepKeepsInv(cfg: Config, c: Closing, e: Event)
    requires Inv(cfg, c) && Possible(cfg, c, e)
    ensures Inv(cfg, Step(cfg, c, e))
  {
    StepKeepsRange(cfg, c, e);
    StepKeepsShutdownLast(cfg, c, e);
    StepNoticesStop(cfg, c, e);
    if !cfg.paced {
      StepOverlooksNone(cfg, c, e);
    }
  }

  lemma ClosingStrands(c: Closing, s: nat)
    requires s < |c.streams| && !c.streams[s].closed && !Stranded(c)
    ensures Stranded(Set(c, s, c.streams[s].(closed := true))) <==> StrandingClose(c, Close(s))
  {
    hide Settled;
    var c' := Set(c, s, c.streams[s].(closed := true));
    ShuttingKeepsSettled(c.streams[s]);
    assert forall o | 0 <= o < |c.streams| && o != s :: c'.streams[o] == c.streams[o];
  }

  /** In a client without a pacer exactly one kind of step strands a stream. */
  lemma StrandsIff(cfg: Config, c: Closing, e: Event)
    requires !cfg.paced && Inv(cfg, c) && Possible(cfg, c, e) && !Stranded(c)
    ensures Stranded(Step(cfg, c, e)) <==> StrandingClose(c, e)
  {
    hide Settled, Outstanding, CountEchoed, CountBuilt, WindowOpen;
    var c' := Step(cfg, c, e);
    match e
    case Close(s) => ClosingStrands(c, s);
    case _ =>
  }

  // ---------------------------------------------------------------- runs

  datatype History = History(states: seq<Closing>, events: seq<Event>)

  function Fresh(n: nat): Closing {
    Closing(seq(n, _ => QuicStream(Counters(0, 0), 0.0, false, false, false)), false, 0, Free)
  }

  /** There is one more state than there are events. */
  type Run = h: History | |h.states| == |h.events| + 1 witness History([Fresh(0)], [])

  ghost predicate IsRun(cfg: Config, r: Run) {
    && r.states[0] == Fresh(|cfg.profiles|)
    && forall i | 0 <= i < |r.events| ::
         Possible(cfg, r.states[i], r.events[i]) && r.states[i + 1] == Step(cfg, r.states[i], r.events[i])
  }

  function Last(r: Run): Closing {
    r.states[|r.states| - 1]
  }

  ghost predicate Extends(r: Run, r': Run) {
    && |r.events| <= |r'.events| && r'.events[..|r.events|] == r.events
    && r'.states[..|r.states|] == r.states
  }

  /** Time has gone on in a run, with the stop flag as it was and a call's progress as given. */
  ghost predicate Onward(r: Run, r': Run, progress: Progress) {
    && Extends(r, r') && Last(r').progress == progress && Last(r').stop == Last(r).stop
    && Last(r').owed >= Last(r).owed
  }

  lemma ExtendsJoins(r: Run, mid: Run, r': Run)
    requires Extends(r, mid) && Extends(mid, r')
    ensures Extends(r, r')
  {
    assert r'.events[..|r.events|] == mid.events[..|r.events|];
    assert r'.states[..|r.states|] == mid.states[..|r.states|];
  }

  lemma OnwardJoins(r: Run, mid: Run, r': Run, earlier: Progress, later: Progress)
    requires Onward(r, mid, earlier) && Onward(mid, r', later)
    ensures Onward(r, r', later)
  {
    ExtendsJoins(r, mid, r');
  }

  lemma ExtendsItself(r: Run)
    ensures Extends(r, r)
  {
  }

  lemma NothingHappens(r: Run)
    ensures Onward(r, r, Last(r).progress)
  {
    ExtendsItself(r);
  }

  lemma OnwardExtends(r: Run, mid: Run, r': Run)
    requires Extends(r, mid) && Onward(mid, r', Last(r').progress)
    ensures Extends(r, r') && Last(r').stop == Last(mid).stop
  {
    ExtendsJoins(r, mid, r');
  }

  lemma EmptyRun(cfg: Config) returns (r: Run)
    ensures IsRun(cfg, r) && r.events == [] && Last(r) == Fresh(|cfg.profiles|)
  {
    r := History([Fresh(|cfg.profiles|)], []);
  }

  lemma Then(cfg: Config, r: Run, e: Event) returns (r': Run)
    requires IsRun(cfg, r) && Possible(cfg, Last(r), e)
    ensures IsRun(cfg, r') && Extends(r, r') && r'.events == r.events + [e] && Last(r') == Step(cfg, Last(r), e)
  {
    hide Step, Possible, Fresh;
    r' := History(r.states + [Step(cfg, Last(r), e)], r.events + [e]);
    forall i | 0 <= i < |r'.events|
      ensures Possible(cfg, r'.states[i], r'.events[i])
      ensures r'.states[i + 1] == Step(cfg, r'.states[i], r'.events[i])
    {
      if i < |r.events| {
        assert r'.events[i] == r.events[i] && r'.states[i] == r.states[i] && r'.states[i + 1] == r.states[i + 1];
      }
    }
  }

  lemma FreshInv(cfg: Config)
    ensures Inv(cfg, Fresh(|cfg.profiles|)) && |Fresh(|cfg.profiles|).streams| == |cfg.profiles|
    ensures !Fresh(|cfg.profiles|).stop
  {
  }

  lemma {:induction false} RunKeepsInv(cfg: Config, r: Run, i: nat)
    requires IsRun(cfg, r) && i < |r.states|
    ensures Inv(cfg, r.states[i]) && |r.states[i].streams| == |cfg.profiles|
  {
    hide Step, Possible, Inv, Fresh;
    if i == 0 {
      FreshInv(cfg);
    } else {
      RunKeepsInv(cfg, r, i - 1);
      StepKeepsInv(cfg, r.states[i - 1], r.events[i - 1]);
    }
  }

  /** Nothing can happen to a stranded connection but a start or a close. */
  lemma StrandedSteps(cfg: Config, c: Closing, e: Event)
    requires !cfg.paced && Inv(cfg, c) && Stranded(c) && Possible(cfg, c, e)
    ensures e.Start? || e.Close?
    ensures Step(cfg, c, e).owed == if e.Start? then 1 else 0
  {
    hide CountEchoed, WindowOpen;
  }

  lemma ClosingKeepsQuiet(cfg: Config, c: Closing, e: Event)
    requires CountersInRange(c) && Possible(cfg, c, e) && e.Close?
    requires c.stop && AllSettled(c) && c.owed == 0 && c.progress.Free?
    ensures var c' := Step(cfg, c, e); c'.stop && AllSettled(c') && c'.owed == 0 && c'.progress.Free?
  {
    hide Settled;
    StepKeepsSettled(cfg, c, e);
  }

  lemma {:induction false} StrandedHasACause(cfg: Config, r: Run, i: nat) returns (j: nat)
    requires !cfg.paced && IsRun(cfg, r) && i < |r.states| && Stranded(r.states[i])
    ensures j < i && StrandingClose(r.states[j], r.events[j]) && forall k | j < k < i :: r.events[k].Close?
  {
    hide Step, Possible, Inv, Fresh, StrandingClose, AllSettled, SomeUnshut;
    if i == 0 {
      FreshInv(cfg);
      assert false;
    } else {
      var c, e := r.states[i - 1], r.events[i - 1];
      RunKeepsInv(cfg, r, i - 1);
      if Stranded(c) {
        StrandedSteps(cfg, c, e);
        j := StrandedHasACause(cfg, r, i - 1);
      } else {
        StrandsIff(cfg, c, e);
        j := i - 1;
      }
    }
  }

  lemma InvKeepsRange(cfg: Config, c: Closing)
    requires Inv(cfg, c)
    ensures CountersInRange(c)
  {
  }

  lemma {:induction false} QuietAfterStranding(cfg: Config, r: Run, j: nat, i: nat)
    requires !cfg.paced && IsRun(cfg, r) && j < i < |r.states| && StrandingClose(r.states[j], r.events[j])
    requires forall k | j < k < i :: r.events[k].Close?
    ensures var c := r.states[i]; c.stop && AllSettled(c) && c.owed == 0 && c.progress.Free?
  {
    hide Step, Possible, Inv, Fresh;
    RunKeepsInv(cfg, r, i - 1);
    if i == j + 1 {
      StrandsIff(cfg, r.states[j], r.events[j]);
    } else {
      QuietAfterStranding(cfg, r, j, i - 1);
      assert CountersInRange(r.states[i - 1]) by { InvKeepsRange(cfg, r.states[i - 1]); }
      ClosingKeepsQuiet(cfg, r.states[i - 1], r.events[i - 1]);
    }
  }

  /** When a client without a pacer has stranded a stream: exactly when the transport has
      closed the only stream with echoes outstanding while nobody was about to call PumpSends
      or in it, nothing but closes has followed, and there still is a stream to shut down. */
  lemma StrandedIff(cfg: Config, r: Run, i: nat)
    requires !cfg.paced && IsRun(cfg, r) && i < |r.states|
    ensures Stranded(r.states[i]) <==>
              && SomeUnshut(r.states[i])
              && exists j | 0 <= j < i ::
                   StrandingClose(r.states[j], r.events[j]) && forall k | j < k < i :: r.events[k].Close?
  {
    hide IsRun, StrandingClose, AllSettled, SomeUnshut;
    if Stranded(r.states[i]) {
      var j := StrandedHasACause(cfg, r, i);
      assert 0 <= j < i;
    } else if j: nat :|
      j < i && StrandingClose(r.states[j], r.events[j]) && forall k | j < k < i :: r.events[k].Close?
    {
      QuietAfterStranding(cfg, r, j, i);
    }
  }

  /** In all other runs no shutdown is lost: after a stop, with every stream settled, as long
      as one is still to be shut down some thread is about to call PumpSends, or is in a call
      that will decide to or is on its way to that stream. */
  lemma NoLostShutdown(cfg: Config, r: Run, i: nat, s: nat)
    requires !cfg.paced && IsRun(cfg, r) && i < |r.states|
    requires forall j | 0 <= j < i :: !StrandingClose(r.states[j], r.events[j])
    requires r.states[i].stop && AllSettled(r.states[i])
    requires s < |r.states[i].streams| && Unshut(r.states[i].streams[s])
    ensures var c := r.states[i];
            || c.owed > 0 || Possible(cfg, c, Decide)
            || (c.progress.Shutting? && c.progress.next <= s && Possible(cfg, c, ShutNext))
  {
    hide IsRun, StrandingClose, Step;
    StrandedIff(cfg, r, i);
    RunKeepsInv(cfg, r, i);
  }

  /** Nothing is left to happen but closes, and no stream has been shut down. */
  predicate Dormant(c: Closing) {
    && c.stop && AllSettled(c) && c.owed == 0 && c.progress.Free? && !SomeShut(c)
    && forall s | 0 <= s < |c.streams| :: c.streams[s].started || c.streams[s].closed
  }

  lemma DormantStaysDormant(cfg: Config, c: Closing, e: Event)
    requires !cfg.paced && CountersInRange(c) && Dormant(c) && Possible(cfg, c, e)
    ensures e.Close? && Dormant(Step(cfg, c, e))
  {
    hide CountEchoed, WindowOpen;
    StepKeepsSettled(cfg, c, e);
  }

  lemma StrandedIsDormant(cfg: Config, c: Closing)
    requires !cfg.paced && Inv(cfg, c) && Stranded(c)
    requires forall s | 0 <= s < |c.streams| :: c.streams[s].started || c.streams[s].closed
    ensures Dormant(c)
  {
  }

  /** In a client without a pacer a stranded stream is never shut down, nor is any other, once
      all have reported their starts: whatever happens, all of it is closes. */
  lemma {:induction false} StrandedForever(cfg: Config, r: Run, i: nat, k: nat)
    requires !cfg.paced && IsRun(cfg, r) && i <= k < |r.states| && Stranded(r.states[i])
    requires forall s | 0 <= s < |r.states[i].streams| ::
               r.states[i].streams[s].started || r.states[i].streams[s].closed
    ensures Dormant(r.states[k]) && forall m | i <= m < k :: r.events[m].Close?
  {
    hide Fresh, StrandingClose, Inv, Step, Possible, Dormant;
    RunKeepsInv(cfg, r, k);
    if k == i {
      StrandedIsDormant(cfg, r.states[i]);
    } else {
      StrandedForever(cfg, r, i, k - 1);
      RunKeepsInv(cfg, r, k - 1);
      InvKeepsRange(cfg, r.states[k - 1]);
      DormantStaysDormant(cfg, r.states[k - 1], r.events[k - 1]);
    }
  }

  // ---------------------------------------------------------------- shutting down

  /** What the threads inside or about to enter PumpSends do themselves. */
  predicate ByPump(e: Event) {
    e.PacerTurn? || e.Enter? || e.Decide? || e.ShutNext? || e.Finish?
  }

  ghost predicate PumpedFrom(cfg: Config, r: Run, r': Run) {
    && IsRun(cfg, r') && Extends(r, r')
    && forall i | |r.events| <= i < |r'.events| :: ByPump(r'.events[i])
  }

  lemma PumpOn(cfg: Config, r: Run, mid: Run, e: Event) returns (r': Run)
    requires PumpedFrom(cfg, r, mid) && Possible(cfg, Last(mid), e) && ByPump(e)
    ensures PumpedFrom(cfg, r, r') && Last(r') == Step(cfg, Last(mid), e)
  {
    hide IsRun, Step, Possible, ByPump;
    r' := Then(cfg, mid, e);
    assert r'.events[..|r.events|] == mid.events[..|r.events|];
    assert r'.states[..|r.states|] == mid.states[..|r.states|];
  }

  /** A call past its decision shuts down every stream it has still to look at. */
  lemma {:induction false} FinishShutting(cfg: Config, r: Run, mid: Run) returns (r': Run)
    requires PumpedFrom(cfg, r, mid) && Last(mid).progress.Shutting?
    ensures PumpedFrom(cfg, r, r') && Last(r') == Last(mid).(streams := Last(r').streams, progress := Free)
    ensures |Last(r').streams| == |Last(mid).streams|
    ensures forall s | 0 <= s < |Last(mid).streams| ::
              && (Unshut(Last(r').streams[s]) ==> s < Last(mid).progress.next && Unshut(Last(mid).streams[s]))
              && (Settled(Last(mid).streams[s]) ==> Settled(Last(r').streams[s]))
    decreases |Last(mid).streams| - Last(mid).progress.next
  {
    hide PumpedFrom, Settled;
    var c := Last(mid);
    if c.progress.next >= |c.streams| {
      r' := PumpOn(cfg, r, mid, Finish);
    } else {
      ShuttingKeepsSettled(c.streams[c.progress.next]);
      var one := PumpOn(cfg, r, mid, ShutNext);
      r' := FinishShutting(cfg, r, one);
    }
  }

  /** The decision, carried through, leaves no started, open stream without its shutdown. */
  lemma DecisionShutsEverything(cfg: Config, r: Run, mid: Run) returns (r': Run)
    requires PumpedFrom(cfg, r, mid) && Possible(cfg, Last(mid), Decide)
    ensures PumpedFrom(cfg, r, r') && !SomeUnshut(Last(r'))
  {
    hide PumpedFrom, Settled;
    var one := PumpOn(cfg, r, mid, Decide);
    r' := FinishShutting(cfg, r, one);
  }

  /** A call made on a settled connection decides at once. */
  lemma NextCallDecides(cfg: Config, r: Run, mid: Run) returns (r': Run)
    requires PumpedFrom(cfg, r, mid)
    requires Last(mid).stop && AllSettled(Last(mid)) && Last(mid).progress.Free? && (Last(mid).owed > 0 || cfg.paced)
    ensures PumpedFrom(cfg, r, r') && !SomeUnshut(Last(r'))
  {
    hide PumpedFrom, Settled;
    var called := mid;
    if Last(mid).owed == 0 {
      called := PumpOn(cfg, r, mid, PacerTurn);
    }
    var entered := PumpOn(cfg, r, called, Enter);
    r' := DecisionShutsEverything(cfg, r, entered);
  }

  lemma NothingPumped(cfg: Config, r: Run)
    requires IsRun(cfg, r)
    ensures PumpedFrom(cfg, r, r)
  {
  }

  /** Whenever every stream is settled after a stop, with a pacer or without, the threads in
      PumpSends or about to call it shut down all that is left, unless it is stranded. */
  lemma ShutdownCanFinish(cfg: Config, r: Run) returns (r': Run)
    requires IsRun(cfg, r) && Last(r).stop && AllSettled(Last(r)) && (!cfg.paced ==> !Stranded(Last(r)))
    ensures PumpedFrom(cfg, r, r') && !SomeUnshut(Last(r'))
  {
    hide IsRun, Settled, PumpedFrom;
    var c := Last(r);
    assert PumpedFrom(cfg, r, r) by { NothingPumped(cfg, r); }
    RunKeepsInv(cfg, r, |r.events|);
    if c.progress.Free? {
      if c.owed > 0 || cfg.paced {
        r' := NextCallDecides(cfg, r, r);
      } else {
        r' := r;
      }
    } else if c.progress.Shutting? {
      r' := FinishShutting(cfg, r, r);
      if c.owed > 0 || cfg.paced {
        r' := NextCallDecides(cfg, r, r');
      }
    } else {
      r' := DecisionShutsEverything(cfg, r, r);
    }
  }

  // ---------------------------------------------------------------- an example

  /** Wherever the run's PumpSends finds nothing to send before the stop, every stream it
      could serve has its window full. */
  ghost predicate FillsWindows(cfg: Config, r: Run) {
    forall i, s | 0 <= i < |r.events| && 0 <= s < |r.states[i].streams| && s < |cfg.profiles| ::
      r.events[i].Decline? && !r.states[i].stop && Usable(cfg.profiles[s], r.states[i].streams[s]) ==>
        !WindowOpen(cfg.profiles[s], r.states[i].streams[s].counters)
  }

  function TwoStreams(): Config {
    Config([Profile("a", 24, 1, 0), Profile("b", 24, 1, 0)], false)
  }

  lemma ThenFilling(cfg: Config, r: Run, e: Event) returns (r': Run)
    requires IsRun(cfg, r) && FillsWindows(cfg, r) && Possible(cfg, Last(r), e)
    requires e.Decline? && !Last(r).stop ==>
               forall s | 0 <= s < |cfg.profiles| && s < |Last(r).streams| ::
                 Usable(cfg.profiles[s], Last(r).streams[s]) ==>
                   !WindowOpen(cfg.profiles[s], Last(r).streams[s].counters)
    ensures IsRun(cfg, r') && FillsWindows(cfg, r') && Last(r') == Step(cfg, Last(r), e)
  {
    hide Step, Possible, Usable, WindowOpen;
    r' := Then(cfg, r, e);
    assert forall i | 0 <= i < |r.states| :: r'.states[i] == r.states[i];
  }

  lemma NothingYet(cfg: Config, r: Run)
    requires r.events == []
    ensures FillsWindows(cfg, r)
  {
  }

  /** A stream starts, and the call its start brings fills its window. */
  lemma ServeStream(cfg: Config, r: Run, s: nat) returns (r': Run)
    requires cfg == TwoStreams() && IsRun(cfg, r) && FillsWindows(cfg, r)
    requires s < 2 == |Last(r).streams| && !Last(r).stop && Last(r).owed == 0 && Last(r).progress.Free?
    requires Last(r).streams[s] == QuicStream(Counters(0, 0), 0.0, false, false, false)
    requires var x := Last(r).streams[1 - s]; !x.started || x.counters == Counters(1, 0)
    ensures IsRun(cfg, r') && FillsWindows(cfg, r')
    ensures var x := Last(r).streams[s].(counters := Counters(1, 0), started := true);
            Last(r') == Last(r).(streams := Last(r).streams[s := x])
  {
    hide IsRun, FillsWindows;
    r' := ThenFilling(cfg, r, Start(s));
    r' := ThenFilling(cfg, r', Enter);
    r' := ThenFilling(cfg, r', Look);
    r' := ThenFilling(cfg, r', Build(s));
    r' := ThenFilling(cfg, r', Look);
    r' := ThenFilling(cfg, r', Decline);
  }

  /** A client serves its two streams and is told to stop; the first stream's echo comes, and
      the transport closes the second with its echo outstanding. The first, drained, started
      and open, is stranded. */
  lemma CutShortExample() returns (r: Run)
    ensures IsRun(TwoStreams(), r) && FillsWindows(TwoStreams(), r)
    ensures Stranded(Last(r)) && |Last(r).streams| == 2 && Unshut(Last(r).streams[0])
    ensures Last(r).streams[0].counters == Counters(1, 1) && Last(r).streams[1].counters == Counters(1, 0)
    ensures forall s | 0 <= s < 2 :: Last(r).streams[s].started
  {
    hide IsRun, FillsWindows;
    var cfg := TwoStreams();
    r := EmptyRun(cfg);
    assert FillsWindows(cfg, r) by { NothingYet(cfg, r); }
    r := ServeStream(cfg, r, 0);
    r := ServeStream(cfg, r, 1);
    r := ThenFilling(cfg, r, RaiseStop);
    assert !Settled(Last(r).streams[1]);
    r := ThenFilling(cfg, r, Enter);
    r := ThenFilling(cfg, r, Decline);
    r := ThenFilling(cfg, r, Echo(0, 1));
    r := ThenFilling(cfg, r, Enter);
    assert !Settled(Last(r).streams[1]);
    r := ThenFilling(cfg, r, Decline);
    r := ThenFilling(cfg, r, Close(1));
    assert Unshut(Last(r).streams[0]);
  }
}
