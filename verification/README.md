# A model of the mieru transport

This project models the hand-written transport protocol of mieru and the codecs under it, in
Dafny, and proves what the protocol and the codecs promise. `dafny verify dfyconfig.toml` checks
everything.

- **The reliable session.** `Endpoint.dfy` describes one side of a session over packets as a
  value, one function for each thing it does: a write, a retransmission pass, one new segment,
  an acknowledgement, an input, a read. `Session.dfy` is the session object itself: its fields,
  its four segment trees (`Segment.dfy`) and its loops, proved against those functions.
  `Transport.dfy` lets a client and a server take these steps in any order, with a network that
  may deliver any packet ever sent, any number of times or never. `Handshake.dfy`
  follows the opening, `Runs.dfy` states what holds in every world of every run, `StepLaws.dfy`
  what single steps of a run do, and `Writes.dfy` what calls of Write hand over. `Progress.dfy`
  shows how an established session goes on to deliver everything, `Opening.dfy` and
  `Establish.dfy` when a session can be established, and `Delivery.dfy` exactly when everything
  written can still be read. `Refinement.dfy` shows that the calls of the session object, whole
  output rounds among them, are runs of these steps.
- **The low entropy codec.** `Bits.dfy` gives bit deposit and extract by ranks and refines the
  loops to it, on words of booleans with the least significant bit first. `LowEntropy.dfy` proves
  both directions of the codec, and its buffer loops.
- **The wire.** `Metadata.dfy` is the 32-byte header, `Cipher.dfy` the two nonce modes around an
  AEAD, which is a pair of functions with open(seal(x)) = x, `Packet.dfy` datagrams, `Datagram.dfy`
  the way from a packet of a session to a datagram that fits the MTU and back, `Stream.dfy` whole
  streams and conversations of two ends,
  `Fragment.dfy` fragment and padding lengths against the MTU, `Rng.dfy` the random half-mask.
  `Wire.dfy` joins the runs of a session to the datagrams: every packet of every run crosses.
- **Compact histories.** `Counter.dfy` and `CounterBounds.dfy` are the time series counter,
  `Replay.dfy` the replay cache, `KeyCache.dfy` the key caches, `Deque.dfy` the ring buffer.

Runs are those before either side starts closing the session, with fewer than 2^32 segments in
each direction: the source compares sequence numbers without wrap-around. Clocks, random draws,
the congestion window, the retransmission timeout and the write deadline are parameters of the
steps, within the limits of the source: the window is between 16 and 4096 and leaves 16 only after
a segment was acknowledged, the timeout is at least 16.5 ms, the heartbeat jitter at most a second,
and an acknowledgement goes out only when it is due. The source reads the wall clock, several times
in an output round, so what holds in every run holds for every clock and every order of the parts
of a round. The continuations that are shown to exist, or not to exist, read the clock of a side
once in a round, never go back on it, and send new segments and acknowledgements only when no
retransmission pass is due or after that pass. A read that the source interleaves with inputs is
several read steps here, one for each round of its loop; the step with no bytes is the round that
takes an empty segment.

What the model shows about the code where it may surprise a reader:

- An opening can stall forever. If the server application writes 16 or more fragments before its
  session takes in the open request, the open response is numbered behind them. The client sends
  no acknowledgement before it has that response, so the server cannot send more than its first 16
  segments (`Establishment.LateIsReachable`, `Openings.LateForever`). With fewer it stalls only if
  one of them was sent 20 times before the response (`Establishment.MutedIsReachable`); otherwise
  the session can always be established (`Establishment.OpensExactly`).
- An established session can be lost although the network recovers. When each side holds a segment
  that was sent 20 times and not acknowledged, every further output round of either side ends the
  session, so what is still queued is never sent (`Delivery.StuckIsReachable`,
  `Delivery.StuckForever`). If only one side does, everything can still be delivered
  (`Delivery.DeliversExactly`).
- A write whose deadline passes between two fragments has queued the earlier ones but reports
  none of their bytes (`Sessions.ReportedBytes`, `Sessions.ReportsTooFew`); only a write of one
  fragment is safe from it (`Sessions.ReportsExactly`).
- A repeat of data under another tag is reported, but the tag that came first stays in the replay
  cache and is the one that later calls are compared with (`Replay.TagsDecide`).
- The timestamp check wraps around at both ends of its range (`Metadata.WithinOneMinute`).
- A counter query can exceed the exact sum after the clock moved back to an earlier second
  (`CounterBounds.BackwardClockOvercounts`), and only then (`CounterBounds.OvercountsExactly`). It
  never leaves out what is a bucket width inside its window, whatever the clock does
  (`CounterBounds.QueryNeverMisses`).

## Model

| member | source | states |
|---|---|---|
| `Runs.StepKeeps` | pkg/protocol/session.go:798-976 | every step of either side or of the network keeps the invariant: numbering, ack safety, no loss, delivery, windows, opening, timers |
| `Runs.RunKeeps` | pkg/protocol/session.go:708-770 | the invariant holds in every world of every run from two new sessions |
| `Runs.PrefixDelivery` | pkg/protocol/session.go:261-311 | in every reachable world, bytes read, then the left-over, then recvQueue in order are the payloads of the peer segments below nextRecv; what was read is a prefix of all payloads of the peer |
| `Writes.EndToEnd` | pkg/protocol/session.go:323-396 | in every interleaving of calls of Write, steps of both sides and the network: the bytes one application has read are a prefix of what the calls of the other handed over, call by call all of the data when it succeeded and else the n bytes it reported and a part of the chunk after them; and a prefix of all the data when every call succeeded |
| `Writes.LogIsWritten` | pkg/protocol/session.go:323-396 | the payloads a side numbered so far are exactly what its calls of Write handed over, in order |
| `Writes.DrainedMeansDelivered` | pkg/protocol/session.go:1238-1251 | a sender with nothing queued and nothing unacknowledged has had everything its calls of Write handed over taken in by the peer |
| `Writes.OpenCarries` | pkg/protocol/session.go:359-375 | an open request carries all of the data of its Write, or nothing |
| `Writes.PartsCarry` | pkg/protocol/session.go:593-680 | the fragments a chunk loop queues are a prefix of its chunk, and the whole chunk when it runs to the end |
| `Writes.ProgramIsRun` | pkg/protocol/session.go:323-396 | calls of Write that interleave with everything else take the steps of a run |
| `Runs.DrainedMeansTaken` | pkg/protocol/session.go:1238-1251 | a sender with nothing queued and nothing unacknowledged has had every payload it numbered taken in by the peer |
| `StepLaws.TransmitsExactly` | pkg/protocol/session.go:808-936 | in every run: a segment in flight is sent again exactly by a pass of its side when its deadline has come, or when three acknowledgements stopped at it after its first transmission; an acknowledgement that stops at it adds one to its count; it enters sendBuf with its first transmission and leaves exactly when a packet arrives that acknowledges it |
| `StepLaws.AcksPendExactly` | pkg/protocol/session.go:1012-1026 | in every run: an acknowledgement becomes pending exactly when a segment arrives, with a deadline 1 ms later that is never put off, and stops pending exactly when one is sent |
| `StepLaws.LastSentExactly` | pkg/protocol/session.go:1312-1336 | the time from which heartbeats count changes exactly with a step of the side that sends something |
| `StepLaws.PacketsSayExactly` | pkg/protocol/session.go:939-966 | in every run: a packet not sent before carries the nextRecv of its side at that time; an acknowledgement also the number of the last segment and the free places of both receive trees |
| `StepLaws.ChunkAddsExactly` | pkg/protocol/session.go:615-680 | in every run: what a chunk adds to the numbered segments, field by field, in order; low entropy if and only if the side is set to it and, on the server, low entropy data was taken in before |
| `StepLaws.OpenTakenOnce` | pkg/protocol/underlay_packet.go:267-297 | in every run the server takes in at most one open request, whatever the network repeats |
| `StepLaws.InputTakesWindow` | pkg/protocol/session.go:1139-1155 | after an input the remote window is that of the packet as long as nothing moves to recvQueue, and else that of the last segment moved if it is data |
| `StepLaws.SleepEndsAtNextTask` | pkg/protocol/session.go:983-1006 | the sleep ends by the next retransmission check, a pending acknowledgement and the heartbeat, and at no other time but the 1 ms floor |
| `StepLaws.WakesToWork` | pkg/protocol/session.go:939-1006 | before the output loop wakes up neither a pass nor an acknowledgement is due, and right after it one is |
| `Endpoints.BackOffRatio` | pkg/protocol/session.go:839-842 | every back-off is one and a half times the one before, up to rounding |
| `Endpoints.TimeoutGrows` | pkg/protocol/session.go:839-842 | the timeout of a segment grows with every transmission until it reaches 10 s |
| `Wire.EveryPacketCrosses` | pkg/protocol/underlay_packet.go:516-767 | in every run, for MTUs in [1280,1500] and every mode: the datagram of every packet ever sent, with any key, nonce, padding, mask and filler bit, fits the MTU, and the other side parses it into that same packet of that same session if and only if its clock agrees |
| `Wire.StepFits` | pkg/protocol/session.go:798-976 | every step keeps all that a side has queued, keeps for retransmission or has sent within the fields of the metadata and the MTU |
| `Runs.WriteStepIsLoop` | pkg/protocol/session.go:615-680 | the write step of a run leaves the endpoint that the fragment loop leaves |
| `Runs.AckSafety` | pkg/protocol/session.go:1139-1154 | every unAckSeq in flight is at most the nextRecv of its sender now, and every number the peer has not taken in order is still in sendQueue or sendBuf |
| `Runs.WindowNeverDeadlocks` | pkg/protocol/session.go:1412-1414 | recvBuf and recvQueue never hold more than 4096 together, every segment held out of order is still in the sendBuf of the peer, which holds at most 4095, and a window of 0 means that recvQueue is not empty |
| `Runs.HeldIsUnacknowledged` | pkg/protocol/session.go:1161-1179 | a segment that waits out of order has not been dropped by its sender |
| `Runs.NextSegmentAdvances` | pkg/protocol/session.go:1436-1460 | the segment numbered nextRecv is taken in order whenever it arrives and the window is open |
| `Runs.OpeningHandshake` | pkg/protocol/underlay_packet.go:233-297 | no packet of the client reaches a server that does not know the session, every packet is of a kind its receiver accepts, the client numbers one open request, as number 0, and the server at most one open response |
| `Runs.Retransmission` | pkg/protocol/session.go:810-866 | every transmitted segment was sent between 1 and 20 times, nextRetransmissionTime is at most its deadline, and the sleep of the output loop ends by the deadline or after 1 ms |
| `Runs.SleepMeetsDeadlines` | pkg/protocol/session.go:983-1006 | the delay that nextPacketOutputDelay chooses passes no deadline in sendBuf beyond the 1 ms floor |
| `Runs.ResendTimed` | pkg/protocol/session.go:810-866 | a retransmission pass leaves the earliest deadline as the next check and no segment above 20 transmissions |
| `Runs.SendNewTimed` | pkg/protocol/session.go:899-924 | sending a new segment keeps nextRetransmissionTime at most every deadline, and at most 10 ms away when sendBuf was empty |
| `Delivery.DeliversExactly` | pkg/protocol/session.go:798-976 | from a reachable world the session can, however late it has become, be established and both applications read the payload of every segment numbered so far, if and only if the session can open and either one side is not stuck or nothing is queued; a side is stuck when a segment was sent 20 times and nothing in flight acknowledges it |
| `Delivery.CallsDeliverExactly` | pkg/protocol/session.go:323-396 | the same condition decides whether both applications can still read everything that the calls of Write of the other handed over, all of their data if they succeeded |
| `Delivery.NoDeadlock` | pkg/protocol/session.go:798-976 | the continuation: at any later time, with any retransmission timeout of the source, without another byte written, and with every output round beginning with the retransmission pass when it is due |
| `Delivery.StuckForever` | pkg/protocol/session.go:818-835 | when both sides are stuck and something is queued, then from the time of the next checks on no continuation delivers everything: every output round of either side ends the session |
| `Delivery.StuckIsReachable` | pkg/protocol/session.go:818-835 | such a world is reached, for every MTU in [1280,1500] and every mode, by an established session in which each side writes one fragment that is lost 20 times |
| `Delivery.DeadStep` | pkg/protocol/session.go:798-835 | every orderly step keeps both sides blocked and what is queued queued |
| `Delivery.StepReached` | pkg/protocol/session.go:1128-1182 | every step keeps this: what a side has queued the other has not received, data segments are not empty, and a client that does not wait was sent its open response |
| `Establishment.OpensExactly` | pkg/protocol/session.go:798-912 | from a reachable world the client can be established, however late it has become, if and only if it is, or the open response is numbered below 16 and was sent already or no segment of the server was sent 20 times |
| `Establishment.NeverOpens` | pkg/protocol/session.go:798-835 | what cannot open is never opened from the time of the next check of the server on |
| `Establishment.MutedStep` | pkg/protocol/session.go:798-835 | a server that cannot send its open response, because a segment before it was sent 20 times, stays so and the client waits |
| `Establishment.MutedIsReachable` | pkg/protocol/session.go:323-396 | such a world is reached when the server application writes one fragment before its session takes in the open request and all transmissions are lost |
| `Establishment.Establish` | pkg/protocol/session.go:1187-1226 | an opened session that can open can be established, whatever was written, sent or lost so far; the server numbers nothing but its response, and if one side was not stuck then one is not afterwards |
| `Establishment.SendResponse` | pkg/protocol/session.go:891-936 | a response that is still queued and early can be sent in the smallest congestion window, after everything before it and in the same round as the pass |
| `Establishment.LateIsReachable` | pkg/protocol/session.go:323-396 | a world with a late open response is reached, for every MTU in [1280,1500], when the server application writes 24 KB or more before its session takes in the open request |
| `Openings.LateForever` | pkg/protocol/session.go:882-912 | once the open response is numbered 16 or more and the client waits for it, the client waits in every later world of the run, and the server application never reads more than the open request brought |
| `Openings.SentEarly` | pkg/protocol/session.go:886-912 | while the client waits, an open response that was sent is one of the first 16 segments of the server |
| `Openings.StepEarly` | pkg/protocol/session.go:939-946 | every step keeps this: while the client waits, nothing the server numbered has been acknowledged, at most 16 of its segments are outstanding, its window is unchanged, and it has taken in at most one segment |
| `Progress.DeliverAll` | pkg/protocol/session.go:1436-1469 | an established session of which one side is not stuck can go on until both applications have read everything, in the smallest congestion window, with acknowledgements sent only when due, passes run when due and clocks that do not go back |
| `Progress.ReadSent` | pkg/protocol/session.go:1436-1469 | with nothing queued both applications can read everything although neither side may be able to send |
| `Progress.Settle` | pkg/protocol/session.go:798-976 | if one side is not stuck, both can come to have nothing outstanding |
| `Progress.Unstick` | pkg/protocol/session.go:1139-1154 | acknowledgements in flight can take every segment sent 20 times off a side that is not stuck |
| `Progress.AckOwed` | pkg/protocol/session.go:939-976 | a side without such a segment can acknowledge all it has taken, after its retransmission pass if one is due |
| `Progress.PassCanRun` | pkg/protocol/session.go:810-866 | a due pass that meets no segment sent 20 times can run, and no other is due right after it |
| `Progress.Flush` | pkg/protocol/session.go:891-936 | a side with nothing outstanding can empty its queue, one acknowledged segment at a time |
| `Progress.TakeSent` | pkg/protocol/session.go:1436-1469 | a side can take in order everything that its peer holds as sent, while the peer does nothing |
| `Progress.AckRound` | pkg/protocol/session.go:1231-1270 | a side with nothing outstanding takes, reads and acknowledges everything, which leaves the peer with nothing outstanding and an open window |
| `Refinement.OutputRoundIsRun` | pkg/protocol/session.go:798-976 | a round of the output loop that does not end the session is an orderly run: the pass if due, new segments as far as the windows allow, an acknowledgement if due |
| `Refinement.OutputNewIsRun` | pkg/protocol/session.go:877-936 | the loop that sends new segments is a run of send steps, one for each packet, with one congestion window |
| `Refinement.OutputResendIsRun` | pkg/protocol/session.go:798-866 | a retransmission pass that no segment stops is one enabled step |
| `Refinement.OutputAckIsRun` | pkg/protocol/session.go:939-976 | an acknowledgement or heartbeat is one enabled step |
| `Refinement.WriteChunkIsRun` | pkg/protocol/session.go:579-706 | what writeChunk queues in time is one write step, and a refused chunk none |
| `Refinement.WriteRestIsRun` | pkg/protocol/session.go:384-391 | the chunk loop of Write is a run of write steps, one for each chunk |
| `Refinement.StoppedWriteIsRun` | pkg/protocol/session.go:384-391 | a Write that stops inside a chunk is such a run up to the fragments that were in time |
| `Refinement.WriteIsProgram` | pkg/protocol/session.go:323-396 | whatever Write does to a session and returns is a call of a program: it enters, takes its steps and leaves with the same count and outcome |
| `Refinement.ReadIsRun` | pkg/protocol/session.go:261-311 | a Read is a read step |
| `Refinement.InputIsRun` | pkg/protocol/session.go:1042-1126 | taking in the packet that waits first is an input step |
| `Progress.InputMonotone` | pkg/protocol/session.go:1128-1182 | no input moves nextRecv back |
| `Progress.StepExtra` | pkg/protocol/session.go:891-936 | every step keeps transmitted numbers below queued ones, every segment of sendBuf in flight as it is, the first segment of a server taken exactly when it answers, and everything taken in order acknowledged or about to be |
| `Transport.EnqueueKeeps` | pkg/protocol/session.go:343-376 | numbering a segment keeps both sides and both directions consistent |
| `Transport.QueuePartsKeeps` | pkg/protocol/session.go:593-680 | the fragment loop keeps them, and never meets a full queue when it began with more room than fragments |
| `Transport.ResendKeeps` | pkg/protocol/session.go:810-866 | a retransmission pass keeps them |
| `Transport.SendNewKeeps` | pkg/protocol/session.go:882-936 | moving the least queued segment to sendBuf and out keeps them |
| `Transport.SendAckKeeps` | pkg/protocol/session.go:939-976 | an acknowledgement or heartbeat keeps them |
| `Transport.DropNoLoss` | pkg/protocol/session.go:1139-1154 | dropping what an acknowledgement covers loses nothing the peer still needs |
| `Transport.AckCovers` | pkg/protocol/session.go:843-846 | an acknowledgement in flight covers only what its sender has taken in order |
| `Transport.TakeNextReceives` | pkg/protocol/session.go:1436-1460 | moving the next segment to recvQueue keeps the queue contiguous below nextRecv and what was delivered |
| `Transport.MoveAllReceives` | pkg/protocol/session.go:1436-1469 | the move loop keeps the receiver consistent and ends with nothing at or below nextRecv in recvBuf |
| `Transport.StopSettled` | pkg/protocol/session.go:1436-1441 | the move loop stops on a full recvQueue only when recvBuf is empty |
| `Transport.ReadReceives` | pkg/protocol/session.go:261-311 | a read returns the next bytes of the peer and leaves the rest, for every buffer size |
| `Transport.InputKeeps` | pkg/protocol/session.go:1042-1270 | an input step keeps both sides and both directions consistent |
| `Handshake.StepKeepsOpened` | pkg/protocol/session.go:541-564 | every step keeps the opening protocol: what each side may number and send before and after the open response |
| `Handshake.DispatchKeepsOpened` | pkg/protocol/underlay_packet.go:233-297 | the branch for an unknown session is never taken on the server |
| `Handshake.InputKeepsOpened` | pkg/protocol/session.go:1042-1054 | every packet a session takes in is of an accepted kind, so the protocol check never fails |
| `Handshake.SendShape` | pkg/protocol/session.go:886-889 | while the client waits for the open response it sends nothing but the open request |
| `Handshake.FirstInputResponds` | pkg/protocol/session.go:1187-1226 | the first packet a server takes in is the open request, and it answers it |
| `Sessions.Copy` | pkg/protocol/session.go:264-265 | copies as much as fits and changes nothing behind it |
| `Sessions.DeleteAcked` | pkg/protocol/session.go:1141-1152 | the deletion loop leaves exactly the segments not below unAckSeq |
| `Sessions.CountAcks` | pkg/protocol/session.go:1253-1264 | the ascent adds one to the ack count, a byte, of exactly the segment numbered unAckSeq |
| `Sessions.ResendOne` | pkg/protocol/session.go:820-862 | one visit of the pass: the new record, the packet sent if any, and its deadline |
| `Sessions.PassResendsExactly` | pkg/protocol/session.go:808-866 | a pass at a time: below the first segment sent 20 times, exactly the segments whose deadline has come, or at which three acknowledgements stopped after the first transmission, go out again, once and in order of their numbers, with one more transmission and a count of 0; every other segment keeps its record and is not sent |
| `Sessions.RoundWithinWindows` | pkg/protocol/session.go:882-912 | what an output round sends in all stays within the window of the peer and within what the congestion window leaves beside the segments in flight |
| `Sessions.OutcomeHandsOver` | pkg/protocol/session.go:323-396 | every outcome of Write hands over, under the next numbers and in order, all of the data when it succeeds, and else the n bytes it reports and a part of the chunk after them |
| `Sessions.ChunksHandOver` | pkg/protocol/session.go:384-391 | the chunk loop hands over exactly what it was given |
| `Sessions.QueueGrows` | pkg/protocol/session.go:356-376 | the bytes of sendQueue in the order of their numbers grow by exactly the bytes handed over |
| `Sessions.ResendPass` | pkg/protocol/session.go:808-866 | the ascending pass goes up to the first segment sent 20 times, and returns the packets in order of their numbers and the earliest deadline it saw |
| `Sessions.TransmitNext` | pkg/protocol/session.go:891-924 | the first transmission of the least queued segment, with the timer rule for an empty sendBuf |
| `Sessions.MoveNext` | pkg/protocol/session.go:1436-1466 | one round of the move loop on the two trees |
| `Sessions.ReportedBytes` | pkg/protocol/session.go:615-630 | the byte count that writeChunk reports is the number of bytes it queued if and only if the chunk is refused or the deadline does not pass between two fragments |
| `Sessions.ReportsExactly` | pkg/protocol/session.go:593-630 | the reported count is right at every deadline if and only if the chunk is refused or fits one fragment |
| `Sessions.ReportsTooFew` | pkg/protocol/session.go:615-630 | a case where it is not: 3000 bytes, MTU 1400, the deadline after the first of three fragments, 1312 bytes queued and 0 reported |
| `Sessions.WriteChunksNext` | pkg/protocol/session.go:384-391 | queuing complete chunks one after the other is queuing their concatenation |
| `Sessions.Session.MoveRecvBufToRecvQueue` | pkg/protocol/session.go:1436-1469 | the loop is the move function on the state, and the remote window that of the last data segment moved |
| `Sessions.Session.AcceptSegment` | pkg/protocol/session.go:1161-1179 | the segment is dropped exactly on a full window, and waitForRecvQueueSpace never waits |
| `Sessions.Session.InputData` | pkg/protocol/session.go:1128-1229 | the state is that of the input function; it fails only when the answer to an open request meets a full sendQueue |
| `Sessions.Session.InputAck` | pkg/protocol/session.go:1231-1270 | the state is that of the acknowledgement function |
| `Sessions.Session.Input` | pkg/protocol/session.go:1042-1126 | refuses exactly the protocols of the wrong direction and otherwise leaves the state of the input function |
| `Sessions.Session.Read` | pkg/protocol/session.go:241-320 | returns the first bytes of left-over and recvQueue, as many as fit, and leaves the rest; an empty buffer changes nothing |
| `Sessions.Session.WriteFragments` | pkg/protocol/session.go:615-680 | the loop queues the fragments with numbers counting down to 0, as many as are in time |
| `Sessions.Session.WriteChunk` | pkg/protocol/session.go:579-706 | refuses too long chunks and full queues before queuing anything, and otherwise queues the fragments of the chunk |
| `Sessions.Session.WriteOpenRequest` | pkg/protocol/session.go:343-376 | the open request takes the next number and carries the data only up to 1024 bytes and without low entropy; with a full queue only the number is lost |
| `Sessions.Session.Write` | pkg/protocol/session.go:323-396 | the segments it numbers carry, in order, all of b when it succeeds, and else b[..n] for the n it returns and a part of the chunk after it, namely the fragments that were in time; only a full queue under the open request loses a number and queues nothing |
| `Sessions.Session.OutputResend` | pkg/protocol/session.go:798-875 | a due pass resends, below the first segment sent 20 times, exactly the segments whose deadline has come or at which three acknowledgements stopped after the first transmission, leaves the records of all others, and leaves the earliest deadline it saw and the time of the last transmission; one that reaches such a segment sets the output error |
| `Sessions.Session.OutputNew` | pkg/protocol/session.go:877-936 | the loop sends new segments exactly as long as queue, buffer, windows and opening state allow |
| `Sessions.Session.OutputAck` | pkg/protocol/session.go:939-976 | an acknowledgement goes out exactly when due or after the jittered heartbeat interval without a transmission, and not while opening |
| `Sessions.Session.RunOutputOncePacket` | pkg/protocol/session.go:798-976 | after an output error nothing is sent; a pass that meets a segment sent 20 times is such an error and ends the round; otherwise pass, new segments and acknowledgement in this order |
| `Sessions.Session.NextPacketOutputDelay` | pkg/protocol/session.go:983-1006 | computes the delay function |
| `Segments.SegmentTree.Insert` | pkg/protocol/segment.go:198-218 | replaces a segment of the same number and refuses exactly when full |
| `Segments.SegmentTree.DeleteMin` | pkg/protocol/segment.go:222-243 | removes and returns the segment with the least number |
| `Segments.SegmentTree.DeleteMinIf` | pkg/protocol/segment.go:247-277 | removes it exactly when it meets the condition |
| `Segments.SegmentTree.Ascending` | pkg/protocol/segment.go:290-299 | visits every number once, in increasing order |
| `Fragment.FragmentsOf` | pkg/protocol/session.go:593-680 | the fragments concatenate to the chunk, are as many as announced, none is longer than the fragment size and none is empty unless the chunk is |
| `Fragment.FragmentNumberFits` | pkg/protocol/session.go:663-663 | a chunk of up to 32 KiB has at most 55 fragments, so the number fits a byte |
| `Fragment.FragmentSizePositive` | pkg/protocol/segment.go:47-84 | for every MTU in [1280,1500] and every mode there is room for at least 596 bytes and no more than a chunk |
| `Fragment.FragmentWireLen` | pkg/protocol/segment.go:47-75 | every fragment can be encoded, and its wire length fits the MTU |
| `Datagrams.DataFits` | pkg/protocol/session.go:615-680 | for every MTU in [1280,1500] and every mode: every packet the fragment loop numbers becomes a consistent segment that says all the packet says, and with any padding within the limits its datagram is at most the MTU |
| `Datagrams.SessionFits` | pkg/protocol/session.go:343-376 | the same for the open request and the open response |
| `Datagrams.AckFits` | pkg/protocol/session.go:950-966 | the same for acknowledgements, which carry padding on both sides |
| `Datagrams.PacketCrosses` | pkg/protocol/underlay_packet.go:516-767 | the datagram of such a packet, with any padding, mask and nonce, is at most the MTU, and parses into the same protocol, number, acknowledgement, window, fragment, payload and session if and only if the clock agrees |
| `Datagrams.WriteDatagram` | pkg/protocol/underlay_packet.go:670-767 | what is written for such a packet is at most the MTU, and every receiver whose clock agrees takes in the same packet of the same session |
| `Fragment.FragmentFitsExactly` | pkg/protocol/segment.go:47-75 | a fragment of any length fits the MTU if and only if it is no longer than the fragment size |
| `Fragment.PaddingIsLargest` | pkg/protocol/padding.go:95-106 | the padding limit is 255 or one more byte exceeds the MTU |
| `Fragment.StreamFragmentEncodable` | pkg/protocol/segment.go:47-75 | on streams every fragment can be encoded in 16 bits of length |
| `Fragment.MaxPaddingSizeWithTrafficPattern` | pkg/protocol/padding.go:70-93 | the padding limit is the lesser of the limit without a traffic pattern and the configured one, and between 0 and 255 |
| `Fragment.AsciiPaddingLen` | pkg/protocol/padding.go:137-165 | the padding length stays between its minimum and maximum for every draw |
| `Fragment.EntropyPaddingLen` | pkg/protocol/padding.go:137-165 | the padding length is at least the bytes needed, or the maximum, and at most the maximum, for every draw |
| `Bits.PdepGeneric` | pkg/mathext/bit.go:40-50 | the loop is the rank-based deposit for every word and mask |
| `Bits.PextGeneric` | pkg/mathext/bit.go:52-62 | the loop is the rank-based extract for every word and mask |
| `Bits.ExtractOfDeposit` | pkg/mathext/bit.go:40-62 | extracting a deposit gives the word cut to the number of set mask bits |
| `Bits.DepositOfExtract` | pkg/mathext/bit.go:40-62 | depositing an extract gives the word masked |
| `Bits.IsolateLowest` | pkg/mathext/bit.go:40-50 | mask & -mask is the lowest set bit |
| `Bits.ClearLowest` | pkg/mathext/bit.go:40-50 | mask & (mask - 1) clears the lowest set bit |
| `Bits.RotateIterates` | pkg/protocol/low_entropy.go:113-121 | rotating by n is the one-step rotation n times |
| `Bits.RotateCount` | pkg/protocol/low_entropy.go:113-121 | a rotation keeps the number of set bits |
| `LowEntropy.RotateMaskNext` | pkg/protocol/low_entropy.go:113-121 | the mask of a chunk is the mask of the chunk before it rotated once more, and keeps its number of set bits |
| `LowEntropy.RepeatMaskSplit` | pkg/mathext/bit.go:24-26 | the repeated half-mask has twice its set bits |
| `LowEntropy.LowBitsAt` | pkg/protocol/low_entropy.go:237-242 | lowBits(n) sets exactly the n lowest bits, for every n |
| `LowEntropy.EncodeChunkCarries` | pkg/protocol/low_entropy.go:150-171 | an encoded chunk carries the source bits at the mask positions in order and the padding bit everywhere else, also in a partial chunk |
| `LowEntropy.ChunkRoundTrip` | pkg/protocol/low_entropy.go:150-216 | a chunk decodes to its bytes, and the padding bit is inferred from it |
| `LowEntropy.ChunkCanonical` | pkg/protocol/low_entropy.go:189-216 | a chunk that decodes is the encoding of what it decodes to |
| `LowEntropy.RoundTrip` | pkg/protocol/low_entropy.go:137-221 | decoding an encoded payload gives the payload, for every length, mode, half-mask, rotation and padding bit that the encoder accepts |
| `LowEntropy.Canonical` | pkg/protocol/low_entropy.go:175-221 | whatever decodes is the encoding of the result with the inferred padding bit |
| `LowEntropy.DecodesIffEncoded` | pkg/protocol/low_entropy.go:175-221 | bytes decode if and only if some payload of that length encodes to them |
| `LowEntropy.EncodePayload` | pkg/protocol/low_entropy.go:137-172 | the loop that fills the buffer chunk by chunk computes the encoding |
| `LowEntropy.DecodePayload` | pkg/protocol/low_entropy.go:175-221 | the loop that reads it computes the decoding, with all its error cases |
| `LowEntropy.EncodedLenIsChunks` | pkg/protocol/low_entropy.go:72-89 | the encoded length is eight bytes for every started chunk |
| `Rng.Uint32WithBits` | pkg/rng/rng.go:65-82 | the result has exactly n set bits for every sequence of draws; n outside [0,32] is refused |
| `Metadata.WithinOneMinute` | pkg/mathext/numbers.go:55-83 | a clock is accepted against a timestamp exactly when they differ by at most a minute, except that at timestamp 0 and 2^32 - 1 the bounds wrap and exactly the equal clock is refused |
| `Metadata.MetaRoundTrip` | pkg/protocol/metadata.go:147-187 | unmarshalling what was marshalled gives the same fields, and is refused exactly when the clock or the fields are not acceptable |
| `Metadata.SessionRoundTrip` | pkg/protocol/metadata.go:147-187 | the same for the session struct |
| `Metadata.DataAckRoundTrip` | pkg/protocol/metadata.go:225-302 | the same for the data and ack struct |
| `Metadata.MetaCanonical` | pkg/protocol/metadata.go:249-302 | what unmarshals has fields in range and marshals back to the same bytes if and only if the bytes that are ignored are zero |
| `Metadata.MarshalSessionAt` | pkg/protocol/metadata.go:147-158 | every field of a session struct is at its offset |
| `Metadata.MarshalDataAckAt` | pkg/protocol/metadata.go:225-247 | every field of a data or ack struct is at its offset, the low entropy ones only for low entropy protocols |
| `Packets.PrepareForSend` | pkg/protocol/underlay_base.go:328-355 | every low entropy segment of a session is prepared without an error and passes the check of the receiver, for all random draws |
| `Packets.EncryptedRoundTrip` | pkg/protocol/underlay_base.go:269-324 | decoding an encoded encrypted payload gives it back, the tag untouched |
| `Packets.DatagramRoundTrip` | pkg/protocol/underlay_packet.go:516-624 | a datagram has the length of its parts and parses to the same segment if and only if the clock agrees with the timestamp |
| `Packets.DatagramLayout` | pkg/protocol/underlay_packet.go:670-767 | the order of the parts of a datagram, what is sealed under which nonce, and that low entropy encodes the sealed body and leaves the tag |
| `Packets.ParsedLength` | pkg/protocol/underlay_packet.go:516-624 | an accepted datagram has exactly the length its metadata announces |
| `Packets.WriteOneSegment` | pkg/protocol/underlay_packet.go:670-767 | the buffer filled at running offsets is the datagram, and every receiver whose clock agrees parses it back |
| `Packets.StampedIsSendable` | pkg/protocol/underlay_packet.go:699-732 | a segment of a session is fit to be sent after mask, padding lengths and timestamp are set |
| `Cipher.IncreaseNonce` | pkg/cipher/cipher.go:359-370 | the carry loop is the increment function, in place |
| `Cipher.IncreasedValue` | pkg/cipher/cipher.go:359-370 | the increment adds one to the big-endian value, modulo 256 to the number of bytes |
| `Cipher.CipherRoundTrip` | pkg/cipher/cipher.go:100-189 | two ciphers in the same state, implicit or explicit: one decrypts what the other encrypts, and their states are equal again |
| `Cipher.BlockCipher.Encrypt` | pkg/cipher/cipher.go:100-142 | the nonce is sent at first and counted afterwards, or sent every time in stateless mode |
| `Cipher.BlockCipher.Decrypt` | pkg/cipher/cipher.go:160-189 | the nonce is taken from the first ciphertext and counted afterwards, also when opening fails |
| `Streams.SegmentRoundTrip` | pkg/protocol/underlay_stream.go:363-476 | reading a written segment gives it back, leaves the rest of the stream and brings both ciphers to the same state |
| `Streams.StreamRoundTrip` | pkg/protocol/underlay_stream.go:363-764 | for every list of segments: reading the concatenation gives them back in order, consumes exactly what was written, and both ciphers are in the same state |
| `Streams.Conversation` | pkg/protocol/underlay_stream.go:363-812 | two ends of a stream with any interleaving of writes and reads, where the server was made with any key and finds the key of its client: each end has read a prefix of what the other wrote; a client can always write, a server once it has read; and every read gives the next segment of the other end |
| `Streams.TurnAgrees` | pkg/protocol/underlay_stream.go:363-812 | every turn keeps both directions in step: the bytes on their way are the unread segments, written from the state of the reading cipher to that of the writing cipher, under the key of the client |
| `Streams.FirstSegmentLayout` | pkg/protocol/underlay_stream.go:634-764 | the order of the parts of the first segment, and what is sealed under which nonce |
| `Streams.RunCounts` | pkg/cipher/cipher.go:359-370 | a run from a nonce in use moves it by the number of sealed messages, modulo 256^24 |
| `Streams.FirstRunCounts` | pkg/cipher/cipher.go:100-142 | a run of a new cipher ends at its first random nonce plus the number of sealed messages less one, modulo 256^24 |
| `Streams.WriteWithPossibleFragment` | pkg/protocol/underlay_stream.go:816-842 | the pieces concatenate to the data, none is empty or longer than the limit, and all but the last are longer than the square root |
| `Streams.StreamUnderlay.MaybeInitSendBlockCipher` | pkg/protocol/underlay_stream.go:796-812 | the first write sets the sending cipher; a server sends under the key it received with and fails before |
| `Streams.StreamUnderlay.WriteOneSegment` | pkg/protocol/underlay_stream.go:634-764 | succeeds exactly when there is a sending cipher and the payload can be put on the wire, and then appends exactly the bytes of the segment; the cipher advances also when it fails |
| `Streams.StreamUnderlay.ReadOneSegment` | pkg/protocol/underlay_stream.go:363-476 | succeeds exactly when a key is known and the bytes hold a segment, and then consumes exactly that segment |
| `Counters.FloorIsMultiple` | pkg/metrics/counter.go:242-248 | floorTo is the greatest multiple not after the time, also before the epoch |
| `Counters.RecordTotal` | pkg/metrics/counter.go:214-222 | recording adds the delta to the tier and nothing else |
| `Counters.RecordOrdered` | pkg/metrics/counter.go:214-222 | recording keeps starts strictly increasing multiples of the width, whatever the clock does |
| `Counters.CompactTierKeeps` | pkg/metrics/counter.go:227-239 | compaction moves buckets, keeps every tier ordered and loses nothing |
| `Counters.AddConserves` | pkg/metrics/counter.go:139-157 | after every addition, with any clock, the value is the sum over all tiers and the tiers are ordered |
| `Counters.CompactionKeepsRecent` | pkg/metrics/counter.go:227-239 | an addition that compacts leaves at most two minutes of seconds, two hours of minutes and eight days of hours: at most 121, 121 and 193 buckets that do not start after it |
| `Counters.LatestRecordIs` | pkg/metrics/counter.go:183-208 | the last update after loading is the time of the latest record |
| `Counters.NoRollUpIsFinest` | pkg/metrics/counter.go:182-208 | records without a roll up label load as if they were labelled seconds |
| `Counters.LoadConserves` | pkg/metrics/counter.go:183-208 | loading any records in any order keeps their sum and gives ordered tiers |
| `Counters.LoadOfSave` | pkg/metrics/counter.go:160-208 | loading what was saved rebuilds identical tiers |
| `Counters.Search` | pkg/metrics/counter.go:117-117 | the binary search finds the first bucket after the start of the range |
| `Counters.SumTier` | pkg/metrics/counter.go:116-121 | the search and the loop sum exactly the buckets of the range |
| `Counters.Counter.RecordIn` | pkg/metrics/counter.go:214-222 | the new history is that of the record function |
| `Counters.Counter.Compact` | pkg/metrics/counter.go:227-239 | the loops compute the compaction of the three tiers |
| `Counters.Counter.AddWithTime` | pkg/metrics/counter.go:139-157 | the new state is that of the addition function, and conserves |
| `Counters.Counter.DeltaBetween` | pkg/metrics/counter.go:104-123 | the sum over all tiers; an inverted range is refused |
| `Counters.Counter.HistoryPB` | pkg/metrics/counter.go:160-179 | the records of all tiers, the coarsest first |
| `Counters.Counter.LoadHistory` | pkg/metrics/counter.go:183-208 | the tiers, the last update and the compaction time after loading |
| `CounterBounds.ForgetRun` | pkg/metrics/counter.go:139-157 | a counter that remembers the events of each bucket behaves as the counter itself |
| `CounterBounds.RunTidy` | pkg/metrics/counter.go:214-239 | while the clock does not move back to an earlier second, every event is in the bucket of its own time, all are there in order, and the coarse tiers hold only events beyond the retention |
| `CounterBounds.QueryNeverMisses` | pkg/metrics/counter.go:104-123 | for additions and any clock at all, a query up to now is at least the exact sum from t1 plus one bucket width on; the width is a second up to 119 s, a minute up to 119 min, an hour up to 8 days less one hour, and a day beyond |
| `CounterBounds.QueryNeverExceeds` | pkg/metrics/counter.go:104-123 | while the clock does not move back to an earlier second, a query up to now is at most the exact sum after t1 |
| `CounterBounds.RunLoose` | pkg/metrics/counter.go:214-239 | whatever the clock does, no event is in a bucket that starts before its own time, and the coarse tiers hold only events beyond the retention |
| `CounterBounds.OvercountsExactly` | pkg/metrics/counter.go:210-222 | for additions only: at no point does any query up to the present exceed the exact sum if and only if the clock never moved back to an earlier second between two additions |
| `CounterBounds.StepBackOvercounts` | pkg/metrics/counter.go:210-222 | an addition in an earlier second than the one before is counted by the query from the start of the newest bucket, whatever came before it |
| `CounterBounds.NewestStays` | pkg/metrics/counter.go:227-239 | compaction never moves the newest bucket |
| `CounterBounds.BackwardClockOvercounts` | pkg/metrics/counter.go:210-222 | a case where the bound fails: two additions, the second five seconds earlier |
| `Replay.ReplayCache.IsDuplicate` | pkg/replay/replay.go:92-130 | the new state and the answer are those of the check function |
| `Replay.AlwaysFits` | pkg/replay/replay.go:92-115 | neither map outgrows the capacity, for any calls and any clock |
| `Replay.RecentIsFound` | pkg/replay/replay.go:92-130 | from any state: an empty-tag call finds a signature submitted at most an interval ago with fewer than capacity calls in between |
| `Replay.TagsDecide` | pkg/replay/replay.go:92-130 | from any state: data submitted with tag t1 and again with tag t2 at most an interval later, with fewer than capacity calls in between, all for other data, is a duplicate if and only if t1 or t2 is empty or they differ; if the current generation held the data already and was neither full nor expired, the tag it held stays and takes the place of t1 |
| `Replay.CapacityIsSharp` | pkg/replay/replay.go:108-113 | for every capacity, with as many calls in between as the capacity it can be missed |
| `Replay.FoundWasSubmitted` | pkg/replay/replay.go:92-130 | for a clock that does not move backwards, a positive answer means a submission of that signature within the last three intervals, with an empty tag or another one unless the tag now is empty |
| `KeyCache.RoundIsMultiple` | pkg/cipher/api.go:272-274 | the rounded time is the nearest multiple of the interval, halfway up |
| `KeyCache.ClockTolerance` | pkg/cipher/keygen.go:56-73 | clocks that differ by at most the interval share a key among the three tried; clocks that differ by two or more never do |
| `KeyCache.SenderKeyIsTried` | pkg/cipher/api.go:158-168 | the key a sender uses is among the three of a receiver whose clock differs by at most the interval |
| `KeyCache.NewBlockCipherList` | pkg/cipher/cache.go:92-111 | the loop derives the three keys around the time; an empty password is refused |
| `KeyCache.CacheIsTransparent` | pkg/cipher/cache.go:61-90 | after any history of calls, for any passwords and any clock, a lookup answers what a fresh derivation gives |
| `KeyCache.RecentLookUpHits` | pkg/cipher/cache.go:61-90 | an entry answers a later lookup of its password if and only if the epoch is the same and the lookup comes within 30 s less the jitter, with any lookups of other passwords in between; any other lookup derives anew |
| `KeyCache.CipherCache.GetCachedCiphers` | pkg/cipher/cache.go:61-90 | the answer and the new map are those of the lookup function |
| `KeyCache.StatelessDecryptor.KeysAt` | pkg/cipher/api.go:251-264 | the keys tried through the cache of a decryptor are those of a fresh derivation, and within an epoch its own entry is used without a lookup |
| `Deques.MaskedIsMod` | internal/deque/deque.go:370-378 | on 64-bit words, x & (len - 1) is the remainder by a length that is a power of two, for negative x too |
| `Deques.ModBits` | internal/deque/deque.go:370-378 | the mask of the model is the number len - 1 |
| `Deques.MaskedIsSlot` | internal/deque/deque.go:174-180 | the masked index of an offset from the head is its slot in the ring |
| `Deques.MaskedBackward` | internal/deque/deque.go:225-230 | a negative offset masks to the slot counted from the other end |
| `Deques.Deque.Prev` | internal/deque/deque.go:370-372 | the masked index is the slot before |
| `Deques.Deque.Next` | internal/deque/deque.go:375-377 | the masked index is the slot behind |
| `Deques.Deque.constructor` | internal/deque/deque.go:37-63 | an empty deque whose minimum and capacity are the least powers of two that reach what was asked for |
| `Deques.Deque.Resize` | internal/deque/deque.go:404-416 | twice the number of elements, same contents, moved to the front, as on a plain sequence, with the ring invariant kept |
| `Deques.Deque.GrowIfFull` | internal/deque/deque.go:380-393 | a full buffer doubles, an empty one gets the minimum capacity, any other stays; same contents, as on a plain sequence, with the ring invariant kept |
| `Deques.Deque.ShrinkIfExcess` | internal/deque/deque.go:395-399 | halves exactly when a quarter full and above the minimum capacity; same contents, as on a plain sequence, with the ring invariant kept |
| `Deques.Deque.PushBack` | internal/deque/deque.go:86-93 | appends, as on a plain sequence, with the ring invariant kept |
| `Deques.Deque.PushFront` | internal/deque/deque.go:96-103 | prepends, as on a plain sequence, with the ring invariant kept |
| `Deques.Deque.PopFront` | internal/deque/deque.go:108-121 | removes and returns the first, as on a plain sequence, with the ring invariant kept |
| `Deques.Deque.PopBack` | internal/deque/deque.go:126-142 | removes and returns the last, as on a plain sequence, with the ring invariant kept |
| `Deques.Deque.At` | internal/deque/deque.go:174-180 | the element at the index, as on a plain sequence, with the ring invariant kept |
| `Deques.Deque.Set` | internal/deque/deque.go:185-191 | replaces the element at the index, as on a plain sequence, with the ring invariant kept |
| `Deques.Deque.Insert` | internal/deque/deque.go:298-321 | inserts at the index, from whichever end is nearer, as on a plain sequence, with the ring invariant kept |
| `Deques.Deque.Remove` | internal/deque/deque.go:331-352 | removes and returns the element at the index, from whichever end is nearer, as on a plain sequence, with the ring invariant kept |
| `Deques.Deque.Rotate` | internal/deque/deque.go:214-257 | rotates by any number of steps in either direction, as on a plain sequence, with the ring invariant kept |
| `Deques.Deque.Clear` | internal/deque/deque.go:198-208 | removes everything, overwrites every element and keeps the buffer, as on a plain sequence, with the ring invariant kept |
| `Deques.Deque.SetMinCapacity` | internal/deque/deque.go:361-367 | sets the minimum to the power of two, or to 16 when that is larger or the shift overflows |

## Left out

- Closing a session, quotas, and the state before a session is attached to an underlay: the model covers runs of open sessions.
- Session over a stream transport (runOutputOnceStream and the stream branches of the input functions): easy next to the packet transport, since the stream keeps order; the byte stream itself is modelled in `Stream.dfy`.
- Sequence numbers beyond 2^32 segments, where the comparison of the source no longer orders them.
- The congestion window curve, round-trip smoothing and the entropy target of padding: floating point; only their ranges matter to the steps.
- Goroutines, channels, sleeps and notifications: each step of a run is atomic, also where the source holds no lock throughout, as in inputData; where the source waits, the methods of `Session` return.
- Delivery.NoDeadlock: states that a continuation exists, for sessions with sequence numbers left; it does not say that a scheduler takes it.
- Delivery.StuckForever: an output round that ends the session is no step of the model, so what the source sends while it closes, the close request and possibly a last acknowledgement, is not followed.
- Sessions.Session.RunOutputOncePacket: the round that ends the session stops there; closing is not modelled.
- Sessions.Session.Write: a full send queue is reported at once instead of waited for, and the back pressure wait after queuing is not modelled.
- Sessions.Session.WriteChunk: a full send queue is an error at once, and the back pressure wait after queuing is not modelled.
- Sessions.Session.Input: the check of the cipher user name and the quota check are not modelled.
- Sessions.Session.InputData: the quota check before the open response, which closes the session, is not modelled.
- Counters.AddConserves: does not model the wrap-around of 64-bit sums.
- Counters.Counter.LoadHistory: the stable sort is a function on the records, not the library routine.
- Streams.StreamUnderlay.WriteOneSegment: mask and padding are parameters; `Packets.PrepareForSend` draws the mask.
- Packets.WriteOneSegment: takes the two paddings as given; `Datagrams.WriteDatagram` adds the padding limits and the MTU.
- Deques.Deque.PushBack: a deque of 2^62 elements does not grow further, nor does one ask for a larger capacity; the int of the source holds no larger power of two.
- Deques.Deque.PopFront: calls that panic in the source are excluded by preconditions, as for the other operations of the deque.
- Streams.StreamUnderlay.ReadOneSegment: the key that a server finds for a first header is a parameter, the reset of that key after a failed first read is left out, and the replay cache is not consulted; `Replay.dfy` models it alone.
- KeyCache.StatelessDecryptor.KeysAt: stops at the list of keys; the trial of one key after the other is not modelled.
- The cryptography itself, nonce patterns and user hints: the random nonce of a message is a parameter.
- The user registry of a server, SOCKS5, the HTTP proxy, configuration, the command line, metrics export and logging.
