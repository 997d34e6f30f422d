/** The client options that sending depends on, and what the controllers compute from them
    when they are made. */
module Configuration {
  import opened Window
  import opened Distribution

  datatype PacingMode = Unlimited | TotalPps | PerClientPps

  /** `profiles` holds one profile per stream. Without --stream-profile they all are the
      default profile, whose rate is `sendPpsPerClient`. */
  datatype Options = Options(
    profiles: seq<Profile>,
    clientCount: nat,
    serverCount: nat,
    sendServerIndex: int,
    sendPps: nat,
    sendPpsPerClient: nat)

  /** What the option loader insists on. */
  predicate ValidOptions(o: Options) {
    && o.profiles != [] && ValidProfiles(o.profiles)
    && o.clientCount >= 1 && o.serverCount >= 1
    && -1 <= o.sendServerIndex < o.serverCount
    && (o.sendPps == 0 || o.sendPpsPerClient == 0)
  }

  function Mode(o: Options): PacingMode {
    if o.sendPpsPerClient > 0 then PerClientPps
    else if o.sendPps > 0 then TotalPps
    else Unlimited
  }

  function ActiveCount(o: Options): nat
    requires o.serverCount > 0
  {
    |SendingIds(o.clientCount, o.serverCount, o.sendServerIndex)|
  }

  predicate Sends(o: Options, id: nat)
    requires o.serverCount > 0
  {
    ShouldSend(id, o.serverCount, o.sendServerIndex)
  }

  /** A sending connection is counted among the active ones. */
  lemma SenderIsActive(o: Options, id: nat)
    requires o.serverCount > 0 && id < o.clientCount && Sends(o, id)
    ensures ActiveCount(o) > 0
  {
    hide ShouldSend;
    assert id in SendingIds(o.clientCount, o.serverCount, o.sendServerIndex);
  }

  predicate StreamsArePaced(profiles: seq<Profile>) {
    exists s | 0 <= s < |profiles| :: profiles[s].sendPps > 0
  }

  method HasStreamProfilePacing(profiles: seq<Profile>) returns (paced: bool)
    ensures paced <==> StreamsArePaced(profiles)
  {
    for s := 0 to |profiles|
      invariant forall o | 0 <= o < s :: profiles[o].sendPps == 0
    {
      if profiles[s].sendPps > 0 {
        return true;
      }
    }
    return false;
  }

  predicate Paced(o: Options) {
    Mode(o) != Unlimited || StreamsArePaced(o.profiles)
  }

  /** There is a pacer exactly when some rate is configured: in total, per client, or for a
      stream. */
  lemma PacedIffRated(o: Options)
    ensures Paced(o) <==> o.sendPps > 0 || o.sendPpsPerClient > 0 || exists p | p in o.profiles :: p.sendPps > 0
  {
    if p :| p in o.profiles && p.sendPps > 0 {
      var s :| 0 <= s < |o.profiles| && o.profiles[s] == p;
      assert o.profiles[s].sendPps > 0;
    }
    if StreamsArePaced(o.profiles) {
      var s :| 0 <= s < |o.profiles| && o.profiles[s].sendPps > 0;
      assert o.profiles[s] in o.profiles;
    }
  }

  /** Nanoseconds between the slots of the SCTP controller's global clock, or of each
      connection's own in per-client mode. */
  function SctpInterval(mode: PacingMode, o: Options, active: nat): real {
    match mode
    case Unlimited => 0.0
    case TotalPps => if o.sendPps == 0 then 0.0 else 1_000_000_000.0 / (o.sendPps as real)
    case PerClientPps =>
      if o.sendPpsPerClient == 0 || active == 0 then 0.0 else 1_000_000_000.0 / (o.sendPpsPerClient as real)
  }

  /** Nanoseconds between the slots of one QUIC connection; in total-rate mode the active
      connections share the rate. */
  function QuicInterval(mode: PacingMode, o: Options, active: nat): real {
    match mode
    case Unlimited => 0.0
    case TotalPps =>
      if o.sendPps == 0 || active == 0 then 0.0
      else (1_000_000_000.0 * (active as real)) / (o.sendPps as real)
    case PerClientPps =>
      if o.sendPpsPerClient == 0 || active == 0 then 0.0 else 1_000_000_000.0 / (o.sendPpsPerClient as real)
  }

  /** Every clock that is consulted runs at a positive interval. */
  lemma IntervalsArePositive(o: Options, id: nat)
    requires o.serverCount > 0 && id < o.clientCount && Sends(o, id) && Mode(o) != Unlimited
    ensures SctpInterval(Mode(o), o, ActiveCount(o)) > 0.0
    ensures QuicInterval(Mode(o), o, ActiveCount(o)) > 0.0
  {
    hide ActiveCount, Sends;
    SenderIsActive(o, id);
  }

  /** The global clock does not depend on who sends. */
  lemma IntervalsAreNonNegative(mode: PacingMode, o: Options, active: nat)
    ensures SctpInterval(mode, o, active) >= 0.0 && QuicInterval(mode, o, active) >= 0.0
    ensures mode == TotalPps && o.sendPps > 0 ==> SctpInterval(mode, o, active) > 0.0
  {
  }
}
