# Verified model of the echo load tester

The program in `src/main.cpp` measures an echo protocol over SCTP or QUIC. A client keeps a
window of numbered, timestamped messages outstanding on each stream of each connection; a
server sends every complete message back; when told to stop, the client waits until each
stream has received all its echoes and then half-closes the connection, and the server
closes when it sees the end. This project models that logic in Dafny and proves what it is
meant to guarantee.

## How the model is laid out

* `Wire` has the 24-byte header, the frames built from it and the peek that finds a frame
  at the front of a buffer. `Reassembly` has the one-shot parse of a whole byte stream and
  the chunk-by-chunk receivers. `Transport` is one direction of a connection: a send queue,
  the message being written and one ordered byte channel per stream.
* `Window` has the in-flight window on the two wrapping 64-bit counters and its free space. `Pipeline` is one
  SCTP connection as a state machine whose actions are the critical sections, the submits
  after them, partial writes and delivered chunks; `PipelineInvariant` proves the
  conservation invariant over every run, `PipelineTheorems` reads the protocol guarantees
  off it, `Resumption` says what an echo, a pass of the pacer and the start allow to be sent,
  and `Drain` proves that a stopped connection finishes.
* `Pacing` is the pacing clock that forgives a backlog of more than four intervals,
  `Rotation` the rotating stream selection and `Starvation` its guarantees over whole runs,
  `Distribution` the mapping of connections to servers and the staggered start,
  `Configuration` what the controllers compute from the options, `AggregateRate` the rate
  of all QUIC connections together, and `Rates` every pacing clock's rate in terms of the
  options and the profiles alone.
* `LoadClient`, `LoadServer`, `SctpConnections`, `QuicServerStreams` and `QuicClient` hold
  the classes of the program with their methods in the program's own imperative form,
  proved against the functions of the modules above. `Refinement` shows that `PumpSends` and
  both `OnData` handlers do what the state machine's actions say, and `SendSide` that an
  `SctpConnection` object follows the machine through every action.
  `QuicStreams` is a stream of the QUIC client, `QuicTurns` the order in which its streams are
  served while callbacks interfere, and `QuicClosing` the shutdown of one of its
  connections as a machine of its own, with a pacer or without; each `QuicConnection` object
  carries the run of that machine it has gone through.
* `Profiles` is the parser of the stream-profile option and the 16-bit stream identifiers,
  `Metrics` the latency snapshots, `Sums` a few sums over counters.

Times that the program keeps in `double` are `real` here; clocks are non-negative integers
that never go back. Counters and header fields wrap as the 32- and 64-bit fields do. The
transport is assumed to deliver each stream's bytes reliably and in order (section 2.2 of
RFC 9000 for QUIC, section 6.6 of RFC 9260 for SCTP); how it cuts them into chunks, how
much a write takes and how threads interleave is left open. Multi-byte header fields are
little endian, as they are in memory on the hosts the program is built for.

## What turned out false

* Chunking is not always irrelevant to the server. `OnData` throws on a malformed header
  and drops the frames it had already taken from the same chunk.
  `ServerChunkingMattersOnlyAfterAFrame` gives the exact condition and `ChunkingExample`
  two deliveries of one stream that differ. The client counts each frame as it goes and is
  not affected.
* A failed `StreamSend` on the QUIC server leaves the pending count raised for good, so the
  stream is never shut down: `ShutdownIffNoFailure` says exactly when, and
  `RefusedEchoStrandsTheStream` is a run in which it happens.
* In a QUIC client without a pacer, a stream closed by the transport with echoes outstanding
  can make every stream settled without any thread calling `PumpSends` again, and a drained
  stream then never gets its shutdown. `StrandsIff` gives the exact step that does it,
  `StrandedIff` the exact runs, `StrandedForever` shows that it is final, and
  `CutShortExample` is a run in which it happens. With a pacer it cannot happen:
  `ShutdownCanFinish`.
* A held-up thread can let seven messages of a paced QUIC connection leave at one instant,
  one more than slots: `MessageBurstBoundIsTight`.
* Stream identifiers are truncated to 16 bits without a check; the receive handler finds
  the right stream for all of them exactly when they fit: `StreamIdsAreExact`.
* An empty field at the very end of a profile entry goes unnoticed: `TrailingDelimiter`
  says exactly when.
* The profile parser accepts an empty name (`EmptyNameIsAccepted`), but the QUIC client
  never serves a stream without one: `QuicConnection.PumpSends`.
* The usage text calls `--max-inflight` a limit per connection; the code applies it to
  every stream separately, and so does the model.

## Model

| member | source | states |
|---|---|---|
| `Wire.DecodeEncode` | src/main.cpp:479-488 | A field of any width returns the stored value modulo the field's range |
| `Wire.EncodeDecode` | src/main.cpp:479-488 | Every content of a field is the encoding of exactly the value read from it |
| `Wire.PeekFrame` | src/main.cpp:490-514 | A built frame is recognised at the front of any buffer with its full size and header, whatever follows it and whatever the fallback size |
| `Wire.PeekIsStable` | src/main.cpp:497-514 | Once a frame is found complete or malformed, later bytes cannot change that decision |
| `Wire.PeekForeignHeader` | src/main.cpp:490-514 | A wrong magic is rejected; a length field below 24 stands for the fallback size, which is rejected if it is below 24 too; otherwise the frame is complete exactly when all its bytes are there |
| `Wire.FrameOfWrappedSequence` | src/main.cpp:1974-1984 | A sequence counter that has wrapped builds the same frame as the true number |
| `Wire.FillerOfFrame` | src/main.cpp:1981-1984 | Byte i of a built frame, from 24 on, is its sequence number plus i modulo 256 |
| `Wire.StampChangesOnlyTimestamp` | src/main.cpp:2006-2009 | The late timestamp rewrite changes bytes 16 to 23 of any buffer and no other byte |
| `Wire.StampFrame` | src/main.cpp:1974-2009 | Rewriting the timestamp of a built frame gives the frame built with the new timestamp |
| `Reassembly.ParseAccountsForEveryByte` | src/main.cpp:1525-1536 | The extracted frames followed by the leftover are the input, byte for byte |
| `Reassembly.ParseLeftover` | src/main.cpp:1525-1536 | What is left over holds no complete frame, and is malformed exactly when parsing fails |
| `Reassembly.ParseEmitsWholeFrames` | src/main.cpp:1525-1536 | Every extracted piece is exactly one complete frame |
| `Reassembly.ParseAppend` | src/main.cpp:1523-1536 | Parsing may stop after any prefix and resume on the leftover with the same result |
| `Reassembly.ParsePrefix` | src/main.cpp:1523-1536 | Any prefix of a stream of frames parses to a prefix of those frames, and the leftover plus the missing bytes are the remaining frames |
| `Reassembly.FrameRoundTrip` | src/main.cpp:479-514 | Concatenated frames with any sequences, timestamps and sizes from 24 bytes up parse back to exactly those frames and headers, for every fallback size |
| `Reassembly.ClientChunking` | src/main.cpp:1653-1671 | However a byte stream is cut into chunks, the client consumes the frames of its one-shot parse and fails exactly when that fails |
| `Reassembly.ServerChunking` | src/main.cpp:1523-1544 | The server echoes the one-shot frames of the chunks before the failing one, which is all of them when nothing fails |
| `Reassembly.ServerChunkingMattersOnlyAfterAFrame` | src/main.cpp:1525-1544 | The echoed frames are the same for every chunking if and only if the stream is well formed or malformed from its first byte |
| `Reassembly.ChunkingExample` | src/main.cpp:503-505 | Any built frame followed by 24 zero bytes: echoed when the two arrive apart, dropped when they arrive together |
| `Transport.EnqueueEffect` | src/main.cpp:1214-1217 | Queueing a message appends its bytes to what is in flight on its own stream only |
| `Transport.DequeueEffect` | src/main.cpp:1270-1276 | Taking the front message keeps every stream's bytes in flight and their order |
| `Transport.WriteEffect` | src/main.cpp:1301-1333 | A partial write keeps every stream's bytes in flight and their order |
| `Transport.DeliverEffect` | src/main.cpp:1397-1420 | A delivered chunk is the front of what was in flight on that stream |
| `Window.OutstandingIsExact` | src/main.cpp:1957-1959 | The unsigned difference of the wrapped counters is the true number of outstanding messages |
| `Window.CountingLowersOutstanding` | src/main.cpp:1957-1959 | Counting echoes that were outstanding lowers the unsigned difference by exactly their number, across wrap-around |
| `Window.BuildNext` | src/main.cpp:1957-1984 | Building a frame under an open window keeps the window, the wrapped counters and the gapless numbering |
| `Window.PicksKeepTracking` | src/main.cpp:1933-1992 | A whole critical section, whatever streams it picks, keeps every stream's window and numbering |
| `Window.PicksTakeSpace` | src/main.cpp:1957-1984 | Every pick of a critical section takes one place of the free window space |
| `Window.SubmitFront` | src/main.cpp:2002-2010 | The late rewrite turns the first unsubmitted frame of a stream into the frame numbered next |
| `Pipeline.LatencyIsElapsedTime` | src/main.cpp:1661-1671 | The unsigned latency of a consumed frame is its own clock reading minus its submission stamp |
| `Pipeline.DrainedViewIsEmpty` | src/main.cpp:1815-1824 | A stream whose counters agree has nothing in any buffer, queue or channel of either side |
| `PipelineInvariant.StepKeepsInv` | src/main.cpp:1916-2027 | Every action of every thread and of the transport keeps the conservation invariant |
| `PipelineInvariant.ReachableInv` | src/main.cpp:1916-2027 | The conservation invariant holds in every reachable state of the connection |
| `PipelineTheorems.PipelineConservation` | src/main.cpp:1513-1544 | Consumed frames followed by every byte under way are exactly the submitted frames, the unsubmitted ones continue the numbering, and the counters count all of them |
| `PipelineTheorems.EchoesComeInOrder` | src/main.cpp:1640-1676 | The k-th echo consumed is the k-th frame built and carries sequence number k, though the client never looks at it |
| `PipelineTheorems.WindowIsRespected` | src/main.cpp:1957-1959 | In every reachable state between 0 and max_inflight messages are unechoed and the unsigned subtraction yields that number |
| `PipelineTheorems.LatenciesDoNotWrap` | src/main.cpp:1667-1670 | Submission stamp plus recorded latency never exceeds the clock |
| `Resumption.EchoLetsTheLoopSend` | src/main.cpp:1673-1676 | Without a pacer, after any chunk of echoes before the stop the receive loop may send whatever picks the windows admit in one PumpSends |
| `Resumption.EchoMakesRoom` | src/main.cpp:1661-1676 | Without a pacer, once a frame has been consumed on a stream before the stop, that stream's next message may go out |
| `Resumption.PassMaySendOne` | src/main.cpp:1870-1872 | Before the stop each pass of the pacer may send one message on any stream with room |
| `Resumption.PassSendsAtMostOne` | src/main.cpp:1870-1872 | No pass of the pacer sends more than one message on a connection |
| `Resumption.StartLetsMainSend` | src/main.cpp:1618-1636 | Without a pacer a new connection may fill its windows at once |
| `PipelineTheorems.DrainedLosesNothing` | src/main.cpp:1815-1824 | Whenever every stream's counters agree, every message built has been consumed and nothing is under way in either direction |
| `PipelineTheorems.DrainLosesNothing` | src/main.cpp:1994-1999 | When PumpSends decides to close, every message built has been consumed and nothing is under way in either direction |
| `PipelineTheorems.EndOfFileDiscardsNothing` | src/main.cpp:1436-1443 | When the server can see end-of-file it holds no unsent echo, so closing at once discards none |
| `PipelineTheorems.ShutdownAfterEverythingIsWritten` | src/main.cpp:1253-1298 | The write side is shut down only with nothing left to write, and no frame can be submitted from then on |
| `PipelineTheorems.HalfCloseIsSafe` | src/main.cpp:1994-2025 | In every interleaving CloseSend is called at most once and no frame reaches SendCopy after it |
| `PipelineTheorems.NoLostClose` | src/main.cpp:1692-1709 | Without a pacer, a stopped, drained, unclosed connection is still owed a PumpSends, and that call closes it |
| `PipelineTheorems.PacerCloses` | src/main.cpp:1842-1852 | With a pacer, its next pass over a stopped, drained connection closes it |
| `Drain.StepUsesWork` | src/main.cpp:1692-1709 | After a stop every action except the passing of time and the pacer's empty passes uses up a finite amount of work, and those use none |
| `Drain.DrainTerminates` | src/main.cpp:1692-1709 | Under every schedule, with a pacer or without, a stopped connection takes only a bounded number of actions besides the clock's and the pacer's passes |
| `Drain.RestMeansFinished` | src/main.cpp:1994-2025 | A stopped connection at rest between two pacer passes has echoed every message; the server has closed, or the pacer's next pass closes the connection |
| `Drain.StoppedRunsCanFinish` | src/main.cpp:1994-2025 | Every run that has been told to stop, with a pacer or without, extends to one in which everything is echoed and the server has closed |
| `Drain.EveryRunCanFinish` | src/main.cpp:1692-1709 | Every run, stopped or not, extends to one that is told to stop, in which everything built is then echoed and the server has closed |
| `Pacing.BurstBound` | src/main.cpp:1936-1948 | k consecutive slots span at least k - 6 intervals, forgiven backlogs included |
| `Pacing.BurstBoundOfHistory` | src/main.cpp:1855-1876 | The same bound for any history of looks at a clock that is taken only when a message leaves |
| `Pacing.BurstBoundIsTight` | src/main.cpp:1936-1948 | Six slots can fall at one instant, so the constant cannot be improved |
| `Pacing.BacklogAfterSlot` | src/main.cpp:1944-1947 | Right after a slot the clock lags at most four intervals |
| `Pacing.NoDrift` | src/main.cpp:1944-1947 | Without a reset the clock advances by exactly one interval per slot |
| `Pacing.HistoryIsChain` | src/main.cpp:1936-1948 | The slots of any history of looks link up: each starts where the previous one left the clock |
| `Pacing.MessageBurstBound` | src/main.cpp:3303-3306 | Counted when they are handed to the transport, k messages span at least k - 7 intervals |
| `Pacing.MessageBurstBoundIsTight` | src/main.cpp:3303-3306 | Seven messages can leave at one instant: one held up since an early slot and the six slots then due |
| `Rotation.CloserToFront` | src/main.cpp:1951-1985 | Serving another stream brings the scan strictly closer to a waiting eligible one |
| `Rotation.PickIsNearest` | src/main.cpp:1950-1988 | No eligible stream is nearer to the pointer than the one picked |
| `Rotation.StaysEligible` | src/main.cpp:1957-1967 | An eligible stream stays eligible until it is served |
| `Rotation.LeadsJoin` | src/main.cpp:1950-1988 | Selections of successive calls, with what happens in between, are one run of selections |
| `Starvation.EchoesNeverExceedOutstanding` | src/main.cpp:1653-1666 | A delivered chunk never brings more echoes than are outstanding on its stream |
| `Starvation.StepLowersOutstanding` | src/main.cpp:1640-1676 | Everything but PumpSends leaves a stream's outstanding count the same or lower |
| `Starvation.RunLeads` | src/main.cpp:1933-1992 | All selections between two points of a run of the connection, over any number of PumpSends calls, are one run of selections |
| `Starvation.NoStarvationInRuns` | src/main.cpp:1950-1988 | In every run a stream that is eligible at some point is among the next picks of the run's PumpSends calls, within its distance from the pointer and hence within stream_count picks, however calls and echoes interleave |
| `Starvation.StreamBurstBoundInRuns` | src/main.cpp:1960-1973 | In every run each pick of a paced stream has a slot, and k of them span at least k - 6 of its intervals |
| `Distribution.ActiveSendConnectionCount` | src/main.cpp:462-477 | The count is the cardinality of the set of sending connections |
| `Distribution.CountIsShare` | src/main.cpp:462-477 | The counted set has the closed-form size |
| `Distribution.SharesAddUp` | src/main.cpp:2308-2308 | The servers' shares of the connections add up to all of them |
| `Distribution.SharesAreEven` | src/main.cpp:2308-2308 | No two servers differ by more than one connection |
| `Distribution.InitialPerClientSendTime` | src/main.cpp:1790-1804 | The loop finds the connection's rank among the sending ones and offsets the first send by its phase |
| `Distribution.PhaseOfSender` | src/main.cpp:1790-1804 | A sender's phase is its rank times interval/active and lies in [0, interval) |
| `Distribution.PhasesAreDistinct` | src/main.cpp:1790-1804 | Distinct senders start at distinct phases within one interval |
| `Configuration.SenderIsActive` | src/main.cpp:1806-1809 | A connection that sends is counted among the active ones |
| `Configuration.HasStreamProfilePacing` | src/main.cpp:324-331 | The loop finds a paced stream exactly when there is one |
| `Configuration.PacedIffRated` | src/main.cpp:1590-1597 | There is a pacer exactly when a total, per-client or stream rate is configured |
| `Configuration.IntervalsArePositive` | src/main.cpp:1770-1788 | Every clock a sending connection consults in a paced mode has a positive interval, in both controllers |
| `AggregateRate.SlotsInWindow` | src/main.cpp:3235-3249 | One paced connection takes at most width/interval + 6 slots in any window |
| `AggregateRate.MessagesInWindow` | src/main.cpp:3303-3306 | One paced connection hands over at most width/interval + 7 messages in any window |
| `AggregateRate.AggregateRateBound` | src/main.cpp:3022-3040 | In total-rate mode all QUIC connections together hand over at most width * pps / 1e9 + 7 * active messages in any window, whatever they have gone through |
| `Rates.StreamRateBound` | src/main.cpp:1960-1973 | In any stretch of any run a stream with rate p is picked at most width * p / 1e9 + 6 times |
| `Rates.StreamClockAdvance` | src/main.cpp:1968-1973 | n slots of a stream with rate p taken in time take its clock exactly n * 1e9 / p further |
| `Rates.ConnectionRateBound` | src/main.cpp:1782-1785 | In per-client mode a connection takes at most width * rate / 1e9 + 6 slots in any stretch of time, whatever it has gone through |
| `Rates.ConnectionClockAdvance` | src/main.cpp:1944-1947 | n such slots taken in time take its clock exactly n * 1e9 / rate further |
| `Rates.GlobalRateBound` | src/main.cpp:1855-1884 | In total-rate mode the pacer sends at most width * rate / 1e9 + 6 messages over all connections in any stretch of time |
| `Rates.GlobalClockAdvance` | src/main.cpp:1880-1884 | n slots of the global clock taken in time take it exactly n * 1e9 / rate further |
| `Rates.QuicClientRateBound` | src/main.cpp:3034-3037 | In per-client mode a QUIC connection hands over at most width * rate / 1e9 + 7 messages in any stretch of time |
| `Rates.QuicClockAdvance` | src/main.cpp:3022-3040 | n slots of a QUIC connection taken in time take its clock exactly n * 1e9 / rate further, times the active connections if they share the rate |
| `Rates.QuicStreamRateBound` | src/main.cpp:3262-3274 | A stream of a QUIC connection with rate p is served at most width * p / 1e9 + 6 times in any stretch of any run of turns |
| `Rates.QuicStreamClockAdvance` | src/main.cpp:3270-3274 | n slots of such a stream taken in time take its clock exactly n * 1e9 / p further |
| `LoadClient.LoadClientController.constructor` | src/main.cpp:1590-1597 | A controller starts consistent and balanced, with pacing mode, active count and interval as the options prescribe |
| `LoadClient.LoadClientController.StartsAreStaggered` | src/main.cpp:1790-1804 | In a controller made from the options the first sends of different connections have different phases within one interval |
| `LoadClient.LoadClientController.GlobalBurstBound` | src/main.cpp:1855-1876 | However often the pacer looks at the global clock, k of its slots span at least k - 6 intervals |
| `LoadClient.LoadClientController.ConnectionBurstBound` | src/main.cpp:1936-1948 | In per-client mode, whatever a connection has gone through, k slots of its own clock span at least k - 6 intervals |
| `LoadClient.LoadClientController.ExtractEchoes` | src/main.cpp:1655-1671 | The loop counts exactly the frames of the one-shot parse, with all their bytes, and records for each the latency against a clock reading of its own, overall and for its stream |
| `LoadClient.LoadClientController.OnData` | src/main.cpp:1640-1672 | The receive handler keeps what the one-shot parse leaves, adds the bytes and latencies of exactly its frames to the totals and to the stream's metrics and no other's, keeps all message counts in balance, and takes no stream's turn away with echoes that were outstanding |
| `LoadClient.ReceivingKeepsBalance` | src/main.cpp:1655-1671 | Echo counters summed over connections and streams, received messages, latency samples and per-stream counts stay equal |
| `LoadClient.LoadClientController.SelectStream` | src/main.cpp:1950-1988 | The scan finds the nearest eligible stream and advances its clock; without a pick no stream was eligible |
| `LoadClient.LoadClientController.TakeSlot` | src/main.cpp:1936-1948 | One look at the connection's own pacing clock |
| `LoadClient.LoadClientController.PumpOne` | src/main.cpp:1936-1991 | One turn of the loop takes its slot, serves the stream selection prescribes and builds that stream's next frame, or leaves all streams as they were |
| `LoadClient.LoadClientController.AllStreamsDrained` | src/main.cpp:1815-1824 | True exactly when every stream's two counters agree |
| `LoadClient.LoadClientController.PumpSends` | src/main.cpp:1916-2000 | Frames are built by rotation within windows and pacing, nothing is sent on a stopped, idle or closed connection, in per-client mode every message takes one slot and at most one slot goes without, a call that sends nothing found nothing to send, the close decision is exact, and an unhindered call fills every window and returns exactly the free space |
| `Window.FreeIsZeroWhenFull` | src/main.cpp:1957-1959 | The free space summed over the streams is zero exactly when every window is full |
| `Window.FreeFitsTheLimit` | src/main.cpp:1916-1916 | The free window space always fits the default message limit |
| `LoadClient.LoadClientController.OnConnected` | src/main.cpp:1618-1634 | A fresh connection starts with empty streams and, in per-client mode, with its staggered first send time |
| `LoadClient.LoadClientController.MaySendPacedMessage` | src/main.cpp:1893-1914 | In per-client mode a connection may send exactly when it is open, selected and due |
| `LoadClient.LoadClientController.PacerPass` | src/main.cpp:1854-1885 | In total-rate mode a pass is one look at the global clock, whose slot is taken exactly when a message leaves, and serves the connection nearest to the pointer that has something to send; otherwise every connection is tried once in rotating order. Each message is the next frame of the stream whose turn it is on its own connection, whose other streams stand, as do connections not served; in per-client mode each one served has taken one slot; whoever was tried and not served had nothing to send |
| `LoadClient.LoadClientController.StartPacing` | src/main.cpp:1826-1829 | The global clock starts at the pacer's first look |
| `LoadClient.LoadClientController.TryConnection` | src/main.cpp:1864-1880 | One attempt sends at most one message, the next frame of the stream whose turn it is, only if the connection may, and none only if there was nothing to send; only that stream and the pointer move, and in per-client mode the message takes one slot |
| `LoadClient.LoadClientController.PumpEach` | src/main.cpp:1842-1852 | The loop of empty pumps builds nothing and closes exactly the drained connections it reports |
| `LoadClient.LoadClientController.RequestStopSending` | src/main.cpp:1692-1709 | After the stop every drained connection is send-closed, and no other is closed by it |
| `Refinement.PumpSendsIsAPump` | src/main.cpp:1916-2000 | Whatever the stop flag does meanwhile, a PumpSends call is a run of the state machine with the same counters, messages and close decision, and the selections that made its picks lead on from the schedule before it |
| `Refinement.OnDataIsADelivery` | src/main.cpp:1640-1676 | The client's OnData is the machine's delivery of that chunk: same buffer, counters and frames, and the samples it records are the latencies the machine appends; never malformed, never more echoes than outstanding; and without a pacer the receive loop may then send whatever the windows admit |
| `Refinement.ServerOnDataIsADelivery` | src/main.cpp:1513-1544 | The server's OnData is the machine's delivery of that chunk, never rejects it, and submits the same echoes |
| `SendSide.Submit` | src/main.cpp:2002-2010 | In every reachable state a submitted frame finds the send side open, and SendCopy queues it as the machine does |
| `SendSide.FinishPump` | src/main.cpp:2013-2025 | CloseSend is called on the object exactly when the machine's call has decided to close |
| `SendSide.TakeNext` | src/main.cpp:1253-1277 | A woken send thread makes the machine's dequeueing, or with nothing queued is about to shut down |
| `SendSide.SendBlocking` | src/main.cpp:1301-1333 | Unless a write fails, whatever pieces SendBlocking wrote are one enabled write of the machine, or none |
| `SendSide.SendBlockingIsWriteBytes` | src/main.cpp:1301-1333 | Per stream, the bytes of all pieces written are the machine's write of the same length |
| `SendSide.ShutDownWrite` | src/main.cpp:1289-1297 | A send thread about to shut down has a CloseSend call before it and an idle link behind it: the machine's shutdown is enabled, and every accepted byte is written |
| `SendSide.DeliveryIsFollowed` | src/main.cpp:1397-1420 | What the server receives is the front of what the object has written and not yet delivered |
| `SendSide.OthersLeaveItAlone` | src/main.cpp:1176-1237 | Every other action of the machine leaves the object in step with it |
| `LoadServer.LoadServerConnection.OnData` | src/main.cpp:1513-1544 | The handler echoes exactly the frames of the one-shot parse of its buffer, or nothing when that fails |
| `SctpConnections.SctpConnection.SendCopy` | src/main.cpp:1176-1219 | Without TLS an open connection queues the message last, a closed one drops it |
| `SctpConnections.SctpConnection.CloseSend` | src/main.cpp:1221-1237 | Without TLS only the first call on an open connection asks the send thread to close |
| `SctpConnections.SctpConnection.TakeNext` | src/main.cpp:1253-1277 | A woken send thread takes the front message before it honours a requested close |
| `SctpConnections.SctpConnection.SendBlocking` | src/main.cpp:1301-1333 | For every sequence of partial, interrupted and failed writes no byte is lost, repeated or reordered, and without a failure enough capacity finishes the message |
| `SctpConnections.SctpConnection.ShutDownWrite` | src/main.cpp:1289-1297 | The shutdown is the send thread's last act and keeps the connection consistent |
| `SctpConnections.SctpConnection.StreamsStayInOrder` | src/main.cpp:1214-1333 | On each stream the bytes written, in hand and queued are the bytes accepted, in order |
| `SctpConnections.SctpConnection.ShutDownIsComplete` | src/main.cpp:1289-1297 | If nothing was sent after CloseSend, the write side is shut down only when every accepted byte is written |
| `QuicServerStreams.EveryFrameIsEchoedOnce` | src/main.cpp:2857-2898 | However the bytes arrive and callbacks interleave, without a failed StreamSend exactly the frames of the one-shot parse are sent back, in order |
| `QuicServerStreams.EchoesComeHome` | src/main.cpp:2857-2898 | From end to end over ordered streams neither side meets a malformed byte, no more echoes come back than messages went out, and without a failed StreamSend they are the client's frames in order |
| `QuicServerStreams.ChunkFitsTheWindow` | src/main.cpp:3403-3428 | The next chunk from the server brings the client no malformed byte and no more echoes than its counters say are outstanding, and no byte at all when none are |
| `QuicServerStreams.PendingCountIsExact` | src/main.cpp:2865-2912 | In every run the pending count is the frames extracted and not completed, so the guarded decrement never skips |
| `QuicServerStreams.ShutdownOnceAndLast` | src/main.cpp:2844-2849 | A stream is shut down at most once, after the peer's end and the completion of every echo |
| `QuicServerStreams.ShutdownIffNoFailure` | src/main.cpp:2892-2895 | At rest after the peer's end, the stream has been shut down if and only if no StreamSend failed |
| `QuicServerStreams.RefusedEchoStrandsTheStream` | src/main.cpp:2892-2895 | One complete frame, the peer's end and one refused echo leave a stream at rest that is never shut down |
| `QuicServerStreams.ServerStreamContext.OnReceive` | src/main.cpp:2853-2881 | The receive callback counts and hands on exactly the frames completed by its buffers, and keeps the pending count and the echoed frames exact |
| `QuicServerStreams.ServerStreamContext.ExtractFrames` | src/main.cpp:2866-2877 | The loop counts and extracts exactly the frames of the one-shot parse |
| `QuicServerStreams.ServerStreamContext.SendNextEcho` | src/main.cpp:2884-2899 | An accepted echo is the next frame in order; a refused one ends the callback and loses the rest |
| `QuicServerStreams.ServerStreamContext.EndReceive` | src/main.cpp:2901-2904 | After the callback the shutdown is never overdue |
| `QuicServerStreams.ServerStreamContext.OnSendComplete` | src/main.cpp:2907-2915 | A completion keeps the pending count exact and starts the shutdown when it was the last |
| `QuicServerStreams.ServerStreamContext.OnPeerSendShutdown` | src/main.cpp:2916-2921 | The peer's end starts the shutdown at once if nothing is pending |
| `QuicTurns.NoStarvation` | src/main.cpp:3251-3282 | A stream of a QUIC connection that is ready and stays open is served within its distance from the pointer, hence within stream_count messages, over any number of calls and whatever callbacks do |
| `QuicTurns.TurnBringsCloser` | src/main.cpp:3251-3282 | Serving another stream brings the scan closer to an open, ready one, which stays ready |
| `QuicTurns.TurnsJoin` | src/main.cpp:3251-3282 | The turns of successive calls, with what happens in between, are one run of turns |
| `QuicTurns.TurnSlotsFormChain` | src/main.cpp:3262-3274 | The slots of a paced stream over any run of turns link up |
| `QuicClient.QuicConnection.constructor` | src/main.cpp:2952-2962 | A connection starts consistent, with its interval and its part in the sending as the options prescribe |
| `QuicClient.QuicConnection.SelectStream` | src/main.cpp:3251-3282 | The scan picks the first usable, due stream with room in rotating order; streams passed over were not ready or have been closed |
| `QuicClient.QuicConnection.TryStream` | src/main.cpp:3255-3280 | A chosen candidate is usable, due and has room; a refused one was not ready or has been closed, in spite of concurrent callbacks |
| `QuicClient.QuicConnection.TakeSlot` | src/main.cpp:3235-3249 | One look at the connection's clock extends the chain of all its slots by one exactly when the slot is due |
| `QuicClient.QuicConnection.SendOne` | src/main.cpp:3235-3307 | One turn hands on, on the stream whose turn it is, a frame with its next sequence number and the present time, recorded against a slot of its own; without a message no slot was due or no stream was ready |
| `QuicClient.QuicConnection.AllStreamsDrained` | src/main.cpp:3139-3146 | True only when every stream is drained or closed, false only when some stream was not to begin with |
| `QuicClient.QuicConnection.ShutdownStreams` | src/main.cpp:3318-3326 | Every started, open stream ends up shut down, each by one call, and none was before |
| `QuicClient.QuicConnection.PumpSends` | src/main.cpp:3230-3328 | While callbacks interfere: windows hold, frames are numbered without gaps and go to the streams whose turn it is, every paced message has its own slot at the time it carries and at most one slot goes without, nothing goes out on a shut-down or nameless stream, a call that sends nothing had no slot due or no stream ready, windows get filled, each drained stream is shut down once after a stop, and the call is a run of the shutdown machine's steps |
| `QuicClient.QuicConnection.MessagesKeepPace` | src/main.cpp:3235-3307 | Whatever a connection has gone through, k of its messages span at least k - 7 of its intervals |
| `QuicClient.QuicConnection.NothingLeftToShut` | src/main.cpp:3318-3326 | A stopped, settled connection without a pacer that nobody is about to pump has no stream left to shut down, unless the transport has closed the last one with echoes outstanding |
| `QuicClosing.StepKeepsInv` | src/main.cpp:3318-3326 | Whatever callbacks, pacer and PumpSends do: a raised flag brings another call, nothing is built or waited for once a stream is shut down, and without a pacer no stream that starts late is overlooked |
| `QuicClosing.StrandsIff` | src/main.cpp:3440-3453 | Without a pacer a step strands a drained stream if and only if it closes the only stream with echoes outstanding, after the stop, while nobody is about to call PumpSends or in it |
| `QuicClosing.StrandedIff` | src/main.cpp:3394-3434 | A run without a pacer has stranded a stream if and only if it has one still to shut down and such a close, followed by nothing but closes |
| `QuicClosing.NoLostShutdown` | src/main.cpp:3318-3326 | Without a pacer and without such a close, a settled stream still to be shut down after the stop always has a PumpSends call coming, deciding, or on its way to it |
| `QuicClosing.StrandedForever` | src/main.cpp:3440-3453 | Without a pacer, once all streams have started or closed, a stranded stream is never shut down: only closes can follow |
| `QuicClosing.DecisionShutsEverything` | src/main.cpp:3318-3326 | The decision to shut down, carried through, leaves no started, open stream without its shutdown |
| `QuicClosing.ShutdownCanFinish` | src/main.cpp:3172-3197 | With every stream settled after the stop, the pacer or the calls already owed shut down every stream left, in any client that has not stranded one |
| `QuicClosing.CutShortExample` | src/main.cpp:3440-3453 | A run that serves two streams, fills both windows, is told to stop and loses the second stream strands the first |
| `Profiles.SplitString` | src/main.cpp:333-341 | The loop over getline yields the parts of the text, of which an empty last one is dropped |
| `Profiles.SplitJoin` | src/main.cpp:333-341 | Splitting undoes joining unless the last part is empty |
| `Profiles.TrailingDelimiter` | src/main.cpp:333-341 | A trailing delimiter goes unnoticed exactly after a non-empty part |
| `Profiles.NumberRoundTrip` | src/main.cpp:140-164 | A printed number is read back exactly when it fits the type |
| `Profiles.EntryRoundTrip` | src/main.cpp:349-370 | Reading the printed form of a valid entry gives that entry |
| `Profiles.ReadEntryIsValid` | src/main.cpp:349-370 | Whatever entry is accepted has a delimiter-free name and numbers within the limits |
| `Profiles.ReadableEntries` | src/main.cpp:349-370 | An entry is readable exactly when its four or five fields spell out a name and numbers within the limits |
| `Profiles.ParseStreamProfiles` | src/main.cpp:343-380 | The parser's loops yield the expansion of the entries or the first error in the order of the code's tests |
| `Profiles.ProfilesRoundTrip` | src/main.cpp:343-380 | Parsing the printed form of any valid entries yields the profiles they stand for |
| `Profiles.AcceptedTextIsCanonical` | src/main.cpp:343-380 | Every accepted text means the same as the canonical printing of its entries |
| `Profiles.BlankEntriesAreSkipped` | src/main.cpp:345-348 | A blank entry in front, between two others or at the end changes no result |
| `Profiles.RejectedTexts` | src/main.cpp:343-380 | A text is rejected with an error exactly when its first entry that is neither blank nor readable has that error, and accepted exactly when there is none |
| `Profiles.ExpansionIsComplete` | src/main.cpp:371-378 | Entries expand in order to as many profiles as their counts add up to |
| `Profiles.IndexedNamesAreDistinct` | src/main.cpp:371-374 | The streams of one entry get different names |
| `Profiles.AcceptedProfilesAreValid` | src/main.cpp:352-370 | Accepted profiles have sizes from 24 bytes, windows from 1 and numbers within their types |
| `Profiles.EmptyNameIsAccepted` | src/main.cpp:352-376 | An entry without a name is accepted like any other |
| `Profiles.StreamIdsAreExact` | src/main.cpp:1811-1813 | Ordinals survive the 16-bit truncation for all streams if and only if base plus count is at most 65536 |
| `Metrics.PercentileIsNearestRank` | src/main.cpp:706-710 | A percentile is a sample, the smallest that more than its rank of the samples do not exceed |
| `Metrics.RankIsNearest` | src/main.cpp:706-710 | The rank is within half a place of the exact position and the clamp never acts |
| `Metrics.SnapshotPercentiles` | src/main.cpp:662-673 | min, p50, p75, p90, p95, p99, p999 and max are each a sample, and at most x exactly when more than the rounded rank of the samples are |
| `Metrics.SnapshotBuckets` | src/main.cpp:674-692 | Each bucket counts the samples above its lower and not above its upper bound in nanoseconds |
| `Metrics.BucketsInNanoseconds` | src/main.cpp:674-692 | The histogram's buckets as half-open ranges of nanoseconds |
| `Metrics.TakeSnapshot` | src/main.cpp:655-692 | One pass over the sorted samples yields the reference snapshot: count, extremes, percentiles and histogram |
| `Metrics.SnapshotIgnoresOrder` | src/main.cpp:655-692 | A snapshot depends only on the multiset of samples |
| `Metrics.SnapshotIsOrdered` | src/main.cpp:655-692 | min, p50, p75, p90, p95, p99, p999 and max are in order, bound every sample, and the buckets add up to the count |

## Left out

- The DTLS path of `SctpConnection`, OpenSSL, sockets, `poll`, address resolution and the QUIC library calls: foreign code; they appear as chunks, partial writes and completion events.
- SctpConnections.SctpConnection.SendCopy: does not model the TLS branch, which writes the message before it returns.
- SctpConnections.SctpConnection.CloseSend: does not model the TLS branch, which shuts the TLS session and the socket down itself.
- Waking of condition variables: waiting is a guarded step. `CloseSend` and `Close` change the wait predicate without its lock, so `DrainTerminates` and `RestMeansFinished` assume that a thread whose condition holds runs eventually.
- The gap inside `Close` between setting the flag and closing the descriptor, which `CloseSend` could observe: `Close` is one step.
- Signals, forced shutdown, drain timeouts and transport errors during a run: the pipeline theorems are about connections that none of these cuts short.
- Sending statistics (`AddSent`), which are updated outside the lock or without one, and mean and standard deviation of latencies.
- IEEE rounding: `double` times and percentile positions are reals.
- Malformed input inside the pipeline beyond showing that it cannot arise there; the receivers in `Reassembly` cover it.
- The map from SCTP stream identifier to stream state: streams are indexed by ordinal, and received identifiers are taken to be in the configured range, which `StreamIdsAreExact` characterises.
- LoadClient.LoadClientController.PumpSends: the connection table is a sequence indexed by identifier, filled in the order in which the transport connects.
- LoadClient.LoadClientController.PacerPass: one pass with the stop flag seen clear; the thread's sleeping between passes is not modelled.
- AggregateRate.AggregateRateBound: a message counts at the time it is stamped with, just before StreamSend is called.
- QuicClient.QuicConnection.PumpSends: callbacks count no more echoes than are outstanding, which `QuicServerStreams.ChunkFitsTheWindow` derives from ordered delivery; whether StreamSend accepts a message is nondeterministic; the limit of an unlimited call is a parameter.
- Forced shutdown at the drain deadline in `QuicClosing`: a stranded stream ends only then, with its connection.
- QUIC connection start-up and failures to open streams, and the receive path of the QUIC client, which repeats the SCTP client's extraction loop.
- Profiles.ToUnsigned64: the C++ library's number conversion is described by a function, not derived from its code.
- Unbounded counters where the program counts statistics in 64 bits, and the 32-bit pending count of a QUIC server stream.
- Options other than stream profiles and sending rates, usage text, periodic statistics output, scripts and benchmarks.
