/** Two endpoints of one session and the network between them. A side keeps every packet
    it ever sent; the network may deliver any of them at any time and any number of times,
    which covers loss, duplication and reordering. Runs are those before either side starts
    closing the session, with fewer than 2^32 segments in each direction. */
module Transport {
  import opened Bytes
  import opened Fragment
  import opened Protocols
  import opened Segments
  import opened Endpoints

  // An endpoint with the packets waiting in its input channel, three histories - the packets
  // it sent, the segments it numbered and the bytes its application read - and the latest
  // time of its clock that any step has seen.
  datatype Side = Side(
    e: Endpoint,
    chan: seq<Packet>,
    out: set<Packet>,
    log: seq<Packet>,
    got: seq<byte>,
    clock: int)

  function NewSide(isClient: bool, mtu: int, mode: int): (s: Side) {
    Side(NewEndpoint(isClient, mtu, mode, 0), [], {}, [], [], 0)
  }

  // `registered` says whether the server underlay knows the session.
  datatype World = World(client: Side, server: Side, registered: bool)

  function Init(clientMtu: int, clientMode: int, serverMtu: int, serverMode: int): (w: World) {
    World(NewSide(true, clientMtu, clientMode), NewSide(false, serverMtu, serverMode), false)
  }

  // ---------------------------------------------------------------------------
  // What one side does
  // ---------------------------------------------------------------------------

  function SideEnqueue(a: Side, p: Packet): (r: Side) {
    a.(e := a.e.(snd := Enqueue(a.e.snd, p)), log := a.log + [p])
  }

  function SideWriteOpen(a: Side, b: seq<byte>): (r: Side) {
    a.(e := WriteOpen(a.e, b), log := a.log + [OpenRequest(a.e, b)])
  }

  function SideQueueParts(a: Side, parts: seq<seq<byte>>, n: nat): (r: Side)
    requires n <= |parts|
    decreases n
  {
    if n == 0 then a
    else SideQueueParts(SideEnqueue(a, DataPacket(a.e, parts[0], |parts| - 1)), parts[1..], n - 1)
  }

  ghost function SideRead(a: Side, n: nat): (r: Side) {
    a.(e := ReadState(a.e, n), got := a.got + Taken(a.e.rcv, n))
  }

  ghost function SideResend(a: Side, now: int, rto: nat, nextTX: int): (r: Side) {
    a.(e := a.e.(snd := ResendAll(a.e.snd, now, rto, a.e.rcv.nextRecv, nextTX)),
       out := a.out + ResentPackets(a.e.snd.sendBuf, now, rto, a.e.rcv.nextRecv, UINT32),
       clock := Max(a.clock, now))
  }

  ghost function SideSendNew(a: Side, now: int, rto: nat): (r: Side)
    requires a.e.snd.sendQueue != map[]
  {
    a.(e := a.e.(snd := SendNew(a.e.snd, now, rto, a.e.rcv.nextRecv)),
       out := a.out + {NextToSend(a.e.snd, now, rto, a.e.rcv.nextRecv).pkt},
       clock := Max(a.clock, now))
  }

  function SideSendAck(a: Side, now: int): (r: Side) {
    a.(e := SendAck(a.e, now), out := a.out + {AckPacket(a.e)}, clock := Max(a.clock, now))
  }

  function SideDeliver(a: Side, p: Packet): (r: Side) {
    a.(chan := a.chan + [p])
  }

  // The session object is made at this time.
  function SideCreated(a: Side, now: int): (r: Side) {
    a.(e := a.e.(snd := a.e.snd.(lastTX := now)), clock := Max(a.clock, now))
  }

  ghost function SideInput(a: Side, now: int): (r: Side)
    requires a.chan != []
  {
    var p := a.chan[0];
    a.(chan := a.chan[1..],
       e := Endpoints.Input(a.e, p, now),
       log := if Responds(a.e, p) then a.log + [OpenResponse(a.e)] else a.log,
       clock := Max(a.clock, now))
  }

  // ---------------------------------------------------------------------------
  // Steps and runs
  // ---------------------------------------------------------------------------

  datatype Who = Client | Server

  datatype Step =
    | OpenStep(b: seq<byte>)                                             // first Write of the client
    | WriteStep(who: Who, b: seq<byte>, stop: nat)                       // writeChunk, `stop` fragments queued
    | ReadStep(who: Who, n: nat)                                         // Read, or one round of its loop
    | ResendStep(who: Who, now: int, rto: nat, nextTX: int)              // retransmission pass
    | SendStep(who: Who, now: int, rto: nat, cwnd: nat, sent: nat)       // one new segment
    | AckStep(who: Who, now: int, jitter: int)                           // ack or heartbeat
    | DispatchStep(who: Who, p: Packet, now: int)                        // the underlay hands over a packet
    | InputStep(who: Who, now: int)                                      // the session takes it in

  function At(w: World, who: Who): Side { if who.Client? then w.client else w.server }

  function Peer(w: World, who: Who): Side { if who.Client? then w.server else w.client }

  function With(w: World, who: Who, s: Side): World {
    if who.Client? then w.(client := s) else w.(server := s)
  }

  // The side whose turn a step is has a session: the server one exists once it is registered.
  predicate Alive(w: World, who: Who) {
    who.Client? || w.registered
  }

  // The congestion window is between its limits, and leaves the lower one only after an
  // acknowledgement took a segment out of sendBuf.
  predicate CongestionWindow(a: Side, cwnd: nat) {
    && MIN_WINDOW_SIZE <= cwnd <= SEGMENT_TREE_CAPACITY
    && (cwnd > MIN_WINDOW_SIZE ==> |a.e.snd.sendQueue| + |a.e.snd.sendBuf| < |a.log|)
  }

  ghost predicate Enabled(w: World, st: Step) {
    match st
    case OpenStep(b) =>
      w.client.e.state == ATTACHED && !w.client.e.openSent
    case WriteStep(who, b, stop) =>
      var a := At(w, who);
      && Alive(w, who)
      && (who.Client? ==> a.e.openSent)
      && 0 < |b| <= MAX_PDU
      && stop <= |PartsOf(a.e, b)|
      && SEND_QUEUE_CAPACITY - |a.e.snd.sendQueue| > |PartsOf(a.e, b)|
      && |a.log| + stop < UINT32
    case ReadStep(who, n) =>
      Alive(w, who)
    case ResendStep(who, now, rto, nextTX) =>
      var e := At(w, who).e;
      && Alive(w, who)
      && rto >= MIN_RTO
      && e.snd.sendBuf != map[]
      && now >= e.snd.nextRetransmission
      && NoneExhausted(e.snd.sendBuf)
      && EarliestDeadline(ResendTree(e.snd.sendBuf, now, rto, e.rcv.nextRecv, UINT32), UINT32, nextTX)
    case SendStep(who, now, rto, cwnd, sent) =>
      Alive(w, who) && rto >= MIN_RTO && CongestionWindow(At(w, who), cwnd) && CanSendNew(At(w, who).e, cwnd, sent)
    case AckStep(who, now, jitter) =>
      && Alive(w, who)
      && -HEARTBEAT_JITTER <= jitter <= HEARTBEAT_JITTER
      && !Opening(At(w, who).e)
      && AckDue(At(w, who).e, now, jitter)
    case DispatchStep(who, p, now) =>
      p in Peer(w, who).out
    case InputStep(who, now) =>
      Alive(w, who) && At(w, who).chan != [] && |At(w, who).log| + 1 < UINT32
  }

  // The event loop of the underlay. On the server an open request registers the session once
  // and is dropped afterwards; any other packet needs the session to be registered. `None`
  // is the branch that asks the peer to close an unknown session.
  function DispatchTo(w: World, who: Who, p: Packet, now: int): (r: Option<World>) {
    if who.Client? then Some(With(w, who, SideDeliver(w.client, p)))
    else if p.protocol.OpenSessionRequest? then
      Some(if w.registered then w else w.(registered := true, server := SideDeliver(SideCreated(w.server, now), p)))
    else if w.registered then Some(With(w, who, SideDeliver(w.server, p)))
    else None
  }

  ghost function Apply(w: World, st: Step): (r: World)
    requires Enabled(w, st)
  {
    match st
    case OpenStep(b) => w.(client := SideWriteOpen(w.client, b))
    case WriteStep(who, b, stop) => With(w, who, SideQueueParts(At(w, who), PartsOf(At(w, who).e, b), stop))
    case ReadStep(who, n) => With(w, who, SideRead(At(w, who), n))
    case ResendStep(who, now, rto, nextTX) => With(w, who, SideResend(At(w, who), now, rto, nextTX))
    case SendStep(who, now, rto, cwnd, sent) => With(w, who, SideSendNew(At(w, who), now, rto))
    case AckStep(who, now, jitter) => With(w, who, SideSendAck(At(w, who), now))
    case DispatchStep(who, p, now) => (match DispatchTo(w, who, p, now) case Some(v) => v case None => w)
    case InputStep(who, now) => With(w, who, SideInput(At(w, who), now))
  }

  // ---------------------------------------------------------------------------
  // Invariants of one side
  // ---------------------------------------------------------------------------

  // A packet is a transmission of the segment with its number.
  ghost predicate Matches(p: Packet, log: seq<Packet>) {
    && p.seqNo < |log|
    && p.protocol == log[p.seqNo].protocol
    && p.payload == log[p.seqNo].payload
    && p.fragment == log[p.seqNo].fragment
  }

  ghost predicate Numbered(log: seq<Packet>) {
    forall i | 0 <= i < |log| :: log[i].seqNo == i && !IsAckProtocol(log[i].protocol)
  }

  // Every segment of a tree is filed under its number and is the one that got this number.
  ghost predicate Files(t: Tree, log: seq<Packet>) {
    forall k | k in t :: t[k].pkt.seqNo == k && Matches(t[k].pkt, log)
  }

  ghost predicate Sending(s: Sender, log: seq<Packet>, out: set<Packet>) {
    && s.nextSend == |log| < UINT32
    && Numbered(log)
    && s.sendQueue.Keys !! s.sendBuf.Keys
    && Files(s.sendQueue, log)
    && Files(s.sendBuf, log)
    && (forall p | p in out && !IsAckProtocol(p.protocol) :: Matches(p, log) && p.seqNo !in s.sendQueue)
  }

  ghost predicate SendBounded(s: Sender) {
    |s.sendBuf| < SEGMENT_TREE_CAPACITY && |s.sendQueue| <= SEND_QUEUE_CAPACITY
  }

  // The queue holds exactly the numbers right below `next`.
  ghost predicate Contiguous(q: Tree, next: nat) {
    && |q| <= next
    && (forall k | k in q :: next - |q| <= k < next)
    && (forall k | next - |q| <= k < next :: k in q)
  }

  ghost predicate Receiving(r: Receiver) {
    && Keyed(r.recvBuf) && Keyed(r.recvQueue)
    && Contiguous(r.recvQueue, r.nextRecv)
    && |r.recvBuf| + |r.recvQueue| <= SEGMENT_TREE_CAPACITY
  }

  // Every acknowledgement ever sent covers only what this side has taken in order.
  ghost predicate AcksSafe(out: set<Packet>, nextRecv: nat) {
    forall p | p in out && IsDataAckProtocol(p.protocol) :: p.unAckSeq <= nextRecv
  }

  // A server that has not answered the open request has room for the answer.
  ghost predicate RoomToRespond(e: Endpoint) {
    !e.isClient && e.state == ATTACHED ==> |e.snd.sendQueue| < SEND_QUEUE_CAPACITY
  }

  ghost predicate Own(a: Side) {
    && Sending(a.e.snd, a.log, a.out)
    && SendBounded(a.e.snd)
    && Receiving(a.e.rcv)
    && AcksSafe(a.out, a.e.rcv.nextRecv)
    && RoomToRespond(a.e)
  }

  // ---------------------------------------------------------------------------
  // Invariants between the sides
  // ---------------------------------------------------------------------------

  ghost predicate SentTo(t: Tree, out: set<Packet>) {
    forall k | k in t :: t[k].pkt in out && !IsAckProtocol(t[k].pkt.protocol)
  }

  // Everything the receiver holds was sent to it.
  ghost predicate Holds(s: Side, r: Side) {
    && (forall p | p in r.chan :: p in s.out)
    && SentTo(r.e.rcv.recvBuf, s.out)
    && SentTo(r.e.rcv.recvQueue, s.out)
    && r.e.rcv.nextRecv <= |s.log|
  }

  // No loss: a numbered segment that the receiver has not taken in order is still with the sender.
  ghost predicate NoLoss(s: Sender, log: seq<Packet>, nextRecv: nat) {
    forall i | nextRecv <= i < |log| :: i in s.sendQueue || i in s.sendBuf
  }

  // The first number still in recvQueue.
  function QueueStart(r: Receiver): int { r.nextRecv - |r.recvQueue| }

  // What was read, then what is left over from the last read, is the payload up to recvQueue.
  ghost predicate Delivered(log: seq<Packet>, r: Receiver, got: seq<byte>) {
    && 0 <= QueueStart(r) <= |log|
    && got + r.unreadBuf == Payloads(log[..QueueStart(r)])
  }

  ghost predicate Link(s: Side, r: Side) {
    Holds(s, r) && NoLoss(s.e.snd, s.log, r.e.rcv.nextRecv) && Delivered(s.log, r.e.rcv, r.got)
  }

  ghost predicate Pair(a: Side, b: Side) {
    Own(a) && Own(b) && Link(a, b) && Link(b, a)
  }

  lemma {:induction false} HoldsGrows(s: Side, t: Side, r: Side)
    requires Holds(s, r) && s.out <= t.out && |s.log| <= |t.log|
    ensures Holds(t, r)
  {}

  lemma {:induction false} DeliveredGrows(log: seq<Packet>, more: seq<Packet>, r: Receiver, got: seq<byte>)
    requires Delivered(log, r, got) && log <= more
    ensures Delivered(more, r, got)
  {
    hide Payloads;
    assert more[..QueueStart(r)] == log[..QueueStart(r)];
  }

  lemma {:induction false} NoLossLater(s: Sender, log: seq<Packet>, n: nat, m: nat)
    requires NoLoss(s, log, n) && n <= m
    ensures NoLoss(s, log, m)
  {}

  // A step of one side keeps the pair when its own invariants hold again, its histories only
  // grow, it loses nothing its peer still needs, and what it holds came from the peer.
  lemma {:induction false} PairStep(a: Side, c: Side, b: Side)
    requires Pair(a, b) && Own(c)
    requires a.log <= c.log && a.out <= c.out && a.e.rcv.nextRecv <= c.e.rcv.nextRecv
    requires NoLoss(c.e.snd, c.log, b.e.rcv.nextRecv)
    requires Holds(b, c) && Delivered(b.log, c.e.rcv, c.got)
    ensures Pair(c, b)
  {
    hide Own, Holds, Delivered, NoLoss;
    HoldsGrows(a, c, b);
    DeliveredGrows(a.log, c.log, b.e.rcv, b.got);
    NoLossLater(b.e.snd, b.log, a.e.rcv.nextRecv, c.e.rcv.nextRecv);
  }

  // A step of the sending half only.
  lemma {:induction false} PairSends(a: Side, c: Side, b: Side)
    requires Pair(a, b) && c.chan == a.chan && c.got == a.got && c.e.rcv == a.e.rcv
    requires Sending(c.e.snd, c.log, c.out) && SendBounded(c.e.snd) && AcksSafe(c.out, c.e.rcv.nextRecv) && RoomToRespond(c.e)
    requires a.log <= c.log && a.out <= c.out
    requires NoLoss(c.e.snd, c.log, b.e.rcv.nextRecv)
    ensures Pair(c, b)
  {
    hide Sending, SendBounded, AcksSafe, Receiving, RoomToRespond, SentTo, Delivered, NoLoss;
    PairStep(a, c, b);
  }

  // A step of the receiving half only.
  lemma {:induction false} PairReceives(a: Side, c: Side, b: Side)
    requires Pair(a, b) && c.log == a.log && c.out == a.out && c.e.snd == a.e.snd
    requires c.e.isClient == a.e.isClient && (c.e.state == a.e.state || c.e.state == ESTABLISHED)
    requires a.e.rcv.nextRecv <= c.e.rcv.nextRecv && Receiving(c.e.rcv)
    requires Holds(b, c) && Delivered(b.log, c.e.rcv, c.got)
    ensures Pair(c, b)
  {
    hide Sending, SendBounded, Receiving, Holds, Delivered, NoLoss;
    PairStep(a, c, b);
  }

  // A step that touches neither half.
  lemma {:induction false} PairOther(a: Side, c: Side, b: Side)
    requires Pair(a, b) && c.log == a.log && c.out == a.out && c.e.snd == a.e.snd && c.e.rcv == a.e.rcv && c.chan == a.chan && c.got == a.got
    requires c.e.isClient == a.e.isClient && (c.e.state == a.e.state || c.e.state == ESTABLISHED)
    ensures Pair(c, b)
  {
    hide Sending, SendBounded, Receiving, SentTo, Delivered, NoLoss;
    PairReceives(a, c, b);
  }

  // ---------------------------------------------------------------------------
  // Numbering
  // ---------------------------------------------------------------------------

  lemma {:induction false} AddOneSmall(n: nat)
    requires n + 1 < UINT32
    ensures AddOne(n) == n + 1
  {}

  lemma {:induction false} FilesGrow(t: Tree, log: seq<Packet>, p: Packet)
    requires Files(t, log)
    ensures Files(t, log + [p])
  {}

  lemma {:induction false} EnqueueSending(s: Sender, log: seq<Packet>, out: set<Packet>, p: Packet)
    requires Sending(s, log, out) && p.seqNo == s.nextSend && |log| + 1 < UINT32 && !IsAckProtocol(p.protocol)
    ensures Sending(Enqueue(s, p), log + [p], out)
    ensures |Enqueue(s, p).sendQueue| == |s.sendQueue| + 1
  {
    hide AddOne, IsAckProtocol;
    AddOneSmall(s.nextSend);
    FilesGrow(s.sendBuf, log, p);
    InsertSize(s.sendQueue, p.seqNo, NewSegment(p));
    assert Files(s.sendQueue[p.seqNo := NewSegment(p)], log + [p]) by {
      FilesGrow(s.sendQueue, log, p);
      assert Matches(p, log + [p]);
    }
    forall q | q in out && !IsAckProtocol(q.protocol)
      ensures Matches(q, log + [p]) && q.seqNo !in Enqueue(s, p).sendQueue
    {
      assert Matches(q, log);
    }
  }

  lemma {:induction false} EnqueueNoLoss(s: Sender, log: seq<Packet>, p: Packet, n: nat)
    requires NoLoss(s, log, n) && p.seqNo == |log|
    ensures NoLoss(Enqueue(s, p), log + [p], n)
  {
    hide AddOne;
  }

  // What numbering needs: room in the send queue and a number below 2^32.
  lemma {:induction false} EnqueueKeeps(a: Side, c: Side, p: Packet, b: Side)
    requires Pair(a, b) && p.seqNo == a.e.snd.nextSend && |a.log| + 1 < UINT32 && !IsAckProtocol(p.protocol)
    requires |a.e.snd.sendQueue| < SEND_QUEUE_CAPACITY
    requires c.e.snd == Enqueue(a.e.snd, p) && c.log == a.log + [p] && c.out == a.out
    requires c.e.rcv == a.e.rcv && c.chan == a.chan && c.got == a.got
    requires !c.e.isClient && c.e.state == ATTACHED ==> |a.e.snd.sendQueue| + 1 < SEND_QUEUE_CAPACITY
    ensures Pair(c, b)
  {
    hide Sending, NoLoss, Receiving, Holds, Delivered, AcksSafe, Enqueue;
    assert a.e.snd.nextSend == |a.log| by { PairNumbers(a, b); }
    EnqueueSending(a.e.snd, a.log, a.out, p);
    EnqueueNoLoss(a.e.snd, a.log, p, b.e.rcv.nextRecv);
    EnqueueFrame(a.e.snd, p);
    PairSends(a, c, b);
  }

  lemma {:induction false} EnqueueFrame(s: Sender, p: Packet)
    ensures Enqueue(s, p).sendBuf == s.sendBuf
  {}

  lemma {:induction false} PairNumbers(a: Side, b: Side)
    requires Pair(a, b)
    ensures a.e.snd.nextSend == |a.log| < UINT32
  {
    hide Link, Receiving, AcksSafe, Files;
  }

  // The fragment loop never meets a full queue when it started with more room than fragments.
  lemma {:induction false} QueuePartsKeeps(a: Side, parts: seq<seq<byte>>, n: nat, b: Side)
    requires Pair(a, b) && n <= |parts| && |a.log| + n < UINT32 && |a.e.snd.sendQueue| + n < SEND_QUEUE_CAPACITY
    ensures Pair(SideQueueParts(a, parts, n), b)
    decreases n
  {
    hide Pair, Enqueue, ReceiveWindow, SendMode;
    if n > 0 {
      var p := DataPacket(a.e, parts[0], |parts| - 1);
      EnqueueKeeps(a, SideEnqueue(a, p), p, b);
      EnqueueSize(a.e.snd, p);
      QueuePartsKeeps(SideEnqueue(a, p), parts[1..], n - 1, b);
    }
  }

  lemma {:induction false} EnqueueSize(s: Sender, p: Packet)
    ensures |Enqueue(s, p).sendQueue| <= |s.sendQueue| + 1
  {
    InsertSize(s.sendQueue, p.seqNo, NewSegment(p));
  }

  // ---------------------------------------------------------------------------
  // Transmissions
  // ---------------------------------------------------------------------------

  lemma {:induction false} RefreshMatches(p: Packet, nextRecv: nat, log: seq<Packet>)
    requires Matches(p, log)
    ensures Matches(Refresh(p, nextRecv), log) && Refresh(p, nextRecv).seqNo == p.seqNo
  {}

  // Taking segments off the send queue and sending only numbered ones keeps the sending half.
  lemma {:induction false} TransmitSending(s: Sender, t: Sender, log: seq<Packet>, out: set<Packet>, more: set<Packet>)
    requires Sending(s, log, out) && t.nextSend == s.nextSend
    requires t.sendQueue.Keys !! t.sendBuf.Keys && Files(t.sendBuf, log)
    requires t.sendQueue.Keys <= s.sendQueue.Keys && forall k | k in t.sendQueue :: t.sendQueue[k] == s.sendQueue[k]
    requires forall p | p in more :: IsAckProtocol(p.protocol) || (Matches(p, log) && p.seqNo !in t.sendQueue)
    ensures Sending(t, log, out + more)
  {
    hide Matches, Numbered, IsAckProtocol;
  }

  lemma {:induction false} ShrinkSending(s: Sender, t: Sender, log: seq<Packet>, out: set<Packet>)
    requires Sending(s, log, out) && t.nextSend == s.nextSend && t.sendQueue == s.sendQueue
    requires t.sendBuf.Keys <= s.sendBuf.Keys && Files(t.sendBuf, log)
    ensures Sending(t, log, out)
  {
    hide Matches, Numbered, IsAckProtocol, Files;
  }

  lemma {:induction false} ResendFiles(t: Tree, now: int, rto: nat, nextRecv: nat, log: seq<Packet>)
    requires Files(t, log)
    ensures Files(ResendTree(t, now, rto, nextRecv, UINT32), log)
    ensures forall p | p in ResentPackets(t, now, rto, nextRecv, UINT32) :: Matches(p, log) && p.seqNo in t
    ensures forall p | p in ResentPackets(t, now, rto, nextRecv, UINT32) :: IsDataAckProtocol(p.protocol) ==> p.unAckSeq == nextRecv
  {
    hide Matches, TxTimeout, IsDataAckProtocol;
    forall k | k in t
      ensures Resent(t[k], now, rto, nextRecv).pkt.seqNo == k && Matches(Resent(t[k], now, rto, nextRecv).pkt, log)
    {
      RefreshMatches(t[k].pkt, nextRecv, log);
    }
  }

  lemma {:induction false} ResendSize(t: Tree, now: int, rto: nat, nextRecv: nat)
    ensures ResendTree(t, now, rto, nextRecv, UINT32).Keys == t.Keys
    ensures |ResendTree(t, now, rto, nextRecv, UINT32)| == |t|
  {
    assert ResendTree(t, now, rto, nextRecv, UINT32).Keys == t.Keys;
  }

  lemma {:induction false} ResendKeeps(a: Side, now: int, rto: nat, nextTX: int, b: Side)
    requires Pair(a, b)
    ensures Pair(SideResend(a, now, rto, nextTX), b)
  {
    hide Sending, Files, Receiving, Holds, Delivered, ResendTree, ResentPackets, Matches;
    var t := a.e.snd.sendBuf;
    SendingFacts(a.e.snd, a.log, a.out);
    ResendFiles(t, now, rto, a.e.rcv.nextRecv, a.log);
    ResendSize(t, now, rto, a.e.rcv.nextRecv);
    var c := SideResend(a, now, rto, nextTX);
    TransmitSending(a.e.snd, c.e.snd, a.log, a.out, ResentPackets(t, now, rto, a.e.rcv.nextRecv, UINT32));
    PairSends(a, c, b);
  }

  lemma {:induction false} SendingFacts(s: Sender, log: seq<Packet>, out: set<Packet>)
    requires Sending(s, log, out)
    ensures s.sendQueue.Keys !! s.sendBuf.Keys && Files(s.sendQueue, log) && Files(s.sendBuf, log)
  {
    hide Files, Matches, Numbered;
  }

  lemma {:induction false} SendNewSending(s: Sender, log: seq<Packet>, out: set<Packet>, now: int, rto: nat, nextRecv: nat)
    requires Sending(s, log, out) && s.sendQueue != map[]
    ensures Sending(SendNew(s, now, rto, nextRecv), log, out + {NextToSend(s, now, rto, nextRecv).pkt})
    ensures NextToSend(s, now, rto, nextRecv).pkt.seqNo == MinKey(s.sendQueue)
  {
    hide Matches, Numbered, TxTimeout;
    RefreshMatches(s.sendQueue[MinKey(s.sendQueue)].pkt, nextRecv, log);
    TransmitSending(s, SendNew(s, now, rto, nextRecv), log, out, {NextToSend(s, now, rto, nextRecv).pkt});
  }

  // The least queued segment moves to sendBuf; no number is lost.
  lemma {:induction false} SendNewNoLoss(s: Sender, log: seq<Packet>, now: int, rto: nat, nextRecv: nat, n: nat)
    requires NoLoss(s, log, n) && s.sendQueue != map[] && NextToSend(s, now, rto, nextRecv).pkt.seqNo == MinKey(s.sendQueue)
    ensures NoLoss(SendNew(s, now, rto, nextRecv), log, n)
    ensures |SendNew(s, now, rto, nextRecv).sendBuf| <= |s.sendBuf| + 1
    ensures |SendNew(s, now, rto, nextRecv).sendQueue| == |s.sendQueue| - 1
  {
    hide TxTimeout, Refresh;
    InsertSize(s.sendBuf, MinKey(s.sendQueue), NextToSend(s, now, rto, nextRecv));
    RemoveSize(s.sendQueue, MinKey(s.sendQueue));
  }

  lemma {:induction false} SendNewKeeps(a: Side, now: int, rto: nat, b: Side)
    requires Pair(a, b) && a.e.snd.sendQueue != map[] && |a.e.snd.sendBuf| + 1 < SEGMENT_TREE_CAPACITY
    ensures Pair(SideSendNew(a, now, rto), b)
  {
    hide Sending, Receiving, Holds, Delivered, SendNew, TxTimeout, NoLoss;
    SendNewSending(a.e.snd, a.log, a.out, now, rto, a.e.rcv.nextRecv);
    SendNewNoLoss(a.e.snd, a.log, now, rto, a.e.rcv.nextRecv, b.e.rcv.nextRecv);
    PairSends(a, SideSendNew(a, now, rto), b);
  }

  lemma {:induction false} SendAckKeeps(a: Side, now: int, b: Side)
    requires Pair(a, b)
    ensures Pair(SideSendAck(a, now), b)
  {
    hide Sending, Files, Receiving, Holds, Delivered, SentTo;
    SendingFacts(a.e.snd, a.log, a.out);
    TransmitSending(a.e.snd, a.e.snd.(lastTX := now), a.log, a.out, {AckPacket(a.e)});
    PairSends(a, SideSendAck(a, now), b);
  }

  // ---------------------------------------------------------------------------
  // Receiving
  // ---------------------------------------------------------------------------

  lemma {:induction false} DeliverKeeps(a: Side, p: Packet, b: Side)
    requires Pair(a, b) && p in b.out
    ensures Pair(SideDeliver(a, p), b)
  {
    hide Sending, Receiving, SentTo, Delivered, NoLoss;
    PairReceives(a, SideDeliver(a, p), b);
  }

  lemma {:induction false} CreatedKeeps(a: Side, now: int, b: Side)
    requires Pair(a, b)
    ensures Pair(SideCreated(a, now), b)
  {
    hide Sending, Files, Receiving, Holds, Delivered, AcksSafe;
    SendingFacts(a.e.snd, a.log, a.out);
    ShrinkSending(a.e.snd, a.e.snd.(lastTX := now), a.log, a.out);
    PairSends(a, SideCreated(a, now), b);
  }

  lemma {:induction false} ConsumeKeeps(a: Side, b: Side)
    requires Pair(a, b) && a.chan != []
    ensures a.chan[0] in b.out
    ensures Pair(a.(chan := a.chan[1..]), b)
  {
    hide Sending, Receiving, SentTo, Delivered, NoLoss;
    PairReceives(a, a.(chan := a.chan[1..]), b);
  }

  // Dropping what an acknowledgement of the peer covers loses nothing the peer still needs.
  lemma {:induction false} DropNoLoss(s: Sender, log: seq<Packet>, u: nat, n: nat)
    requires NoLoss(s, log, n) && u <= n
    ensures NoLoss(s.(sendBuf := DropAcked(s.sendBuf, u)), log, n)
    ensures |DropAcked(s.sendBuf, u)| <= |s.sendBuf| && DropAcked(s.sendBuf, u).Keys <= s.sendBuf.Keys
  {
    SubsetSize(DropAcked(s.sendBuf, u).Keys, s.sendBuf.Keys);
  }

  lemma {:induction false} DropFiles(t: Tree, u: nat, log: seq<Packet>)
    requires Files(t, log)
    ensures Files(DropAcked(t, u), log) && Files(CountAck(t, u), log)
    ensures CountAck(t, u).Keys == t.Keys && |CountAck(t, u)| == |t|
  {
    hide Matches;
    assert CountAck(t, u).Keys == t.Keys;
  }

  lemma {:induction false} DropKeeps(a: Side, u: nat, b: Side)
    requires Pair(a, b) && u <= b.e.rcv.nextRecv
    ensures Pair(a.(e := a.e.(snd := a.e.snd.(sendBuf := DropAcked(a.e.snd.sendBuf, u)))), b)
  {
    hide Sending, Files, Receiving, Holds, Delivered, NoLoss, DropAcked, CountAck, AcksSafe;
    var c := a.(e := a.e.(snd := a.e.snd.(sendBuf := DropAcked(a.e.snd.sendBuf, u))));
    DropNoLoss(a.e.snd, a.log, u, b.e.rcv.nextRecv);
    SendingFacts(a.e.snd, a.log, a.out);
    DropFiles(a.e.snd.sendBuf, u, a.log);
    ShrinkSending(a.e.snd, c.e.snd, a.log, a.out);
    PairSends(a, c, b);
  }

  lemma {:induction false} CountAckKeeps(a: Side, u: nat, b: Side)
    requires Pair(a, b)
    ensures Pair(a.(e := a.e.(snd := a.e.snd.(sendBuf := CountAck(a.e.snd.sendBuf, u)))), b)
  {
    hide Sending, Files, Receiving, Holds, Delivered, DropAcked, CountAck, AcksSafe;
    var c := a.(e := a.e.(snd := a.e.snd.(sendBuf := CountAck(a.e.snd.sendBuf, u))));
    SendingFacts(a.e.snd, a.log, a.out);
    DropFiles(a.e.snd.sendBuf, u, a.log);
    ShrinkSending(a.e.snd, c.e.snd, a.log, a.out);
    PairSends(a, c, b);
  }

  // An acknowledgement in flight never covers a segment that the peer has not taken in order.
  lemma {:induction false} AckCovers(a: Side, p: Packet, b: Side)
    requires Pair(a, b) && p in b.out && IsDataAckProtocol(p.protocol)
    ensures p.unAckSeq <= b.e.rcv.nextRecv
  {
    hide Link, Sending, Receiving;
  }

  lemma {:induction false} TakeAckKeeps(a: Side, p: Packet, b: Side)
    requires Pair(a, b) && p in b.out
    ensures Pair(a.(e := TakeAck(a.e, p)), b)
  {
    hide Pair, DropAcked;
    if IsDataAckProtocol(p.protocol) {
      AckCovers(a, p, b);
      DropKeeps(a, p.unAckSeq, b);
      PairOther(a.(e := a.e.(snd := a.e.snd.(sendBuf := DropAcked(a.e.snd.sendBuf, p.unAckSeq)))), a.(e := TakeAck(a.e, p)), b);
    }
  }

  lemma {:induction false} InputAckKeeps(a: Side, p: Packet, b: Side)
    requires Pair(a, b) && p in b.out
    ensures Pair(a.(e := InputAck(a.e, p)), b)
  {
    hide Pair, DropAcked, CountAck;
    TakeAckKeeps(a, p, b);
    CountAckKeeps(a.(e := TakeAck(a.e, p)), p.unAckSeq, b);
  }

  // ---------------------------------------------------------------------------
  // Taking segments in order
  // ---------------------------------------------------------------------------

  // The receiving half of one side against the histories of its peer.
  ghost predicate Receives(r: Receiver, log: seq<Packet>, out: set<Packet>, got: seq<byte>) {
    && Receiving(r)
    && SentTo(r.recvBuf, out) && SentTo(r.recvQueue, out)
    && r.nextRecv <= |log|
    && Delivered(log, r, got)
  }

  lemma {:induction false} ReceivesPair(a: Side, b: Side)
    requires Pair(a, b)
    ensures Receives(a.e.rcv, b.log, b.out, a.got)
    ensures |b.log| < UINT32 && forall p | p in b.out && !IsAckProtocol(p.protocol) :: Matches(p, b.log)
  {
    hide Receiving, SentTo, Delivered, NoLoss, Files;
  }

  lemma {:induction false} PairOfReceives(a: Side, c: Side, b: Side)
    requires Pair(a, b) && c.log == a.log && c.out == a.out && c.e.snd == a.e.snd && c.chan == a.chan
    requires c.e.isClient == a.e.isClient && (c.e.state == a.e.state || c.e.state == ESTABLISHED)
    requires a.e.rcv.nextRecv <= c.e.rcv.nextRecv && Receives(c.e.rcv, b.log, b.out, c.got)
    ensures Pair(c, b)
  {
    hide Sending, SendBounded, Receiving, SentTo, Delivered, NoLoss, AcksSafe, RoomToRespond;
    PairReceives(a, c, b);
  }

  lemma {:induction false} FileReceives(r: Receiver, p: Packet, log: seq<Packet>, out: set<Packet>, got: seq<byte>)
    requires Receives(r, log, out, got) && p in out && !IsAckProtocol(p.protocol) && !Dropped(r)
    ensures Receives(Filed(r, p), log, out, got)
  {
    hide Payloads, Contiguous, IsAckProtocol;
    InsertSize(r.recvBuf, p.seqNo, NewSegment(p));
  }

  lemma {:induction false} ContiguousNext(q: Tree, next: nat, s: Segment)
    requires Contiguous(q, next)
    ensures next !in q && |q[next := s]| == |q| + 1 && Contiguous(q[next := s], next + 1)
  {
    InsertSize(q, next, s);
  }

  lemma {:induction false} RemoveKeeps(t: Tree, k: nat, out: set<Packet>)
    requires Keyed(t) && SentTo(t, out)
    ensures Keyed(t - {k}) && SentTo(t - {k}, out)
  {
    hide IsAckProtocol;
  }

  lemma {:induction false} DropOldReceives(r: Receiver, k: nat, log: seq<Packet>, out: set<Packet>, got: seq<byte>)
    requires Receives(r, log, out, got) && k in r.recvBuf
    ensures Receives(r.(recvBuf := r.recvBuf - {k}), log, out, got)
  {
    hide Contiguous, Keyed, SentTo, Delivered;
    RemoveSize(r.recvBuf, k);
    RemoveKeeps(r.recvBuf, k, out);
    DeliveredSame(r, r.(recvBuf := r.recvBuf - {k}), log, got);
  }

  lemma {:induction false} DeliveredSame(r: Receiver, t: Receiver, log: seq<Packet>, got: seq<byte>)
    requires Delivered(log, r, got) && QueueStart(t) == QueueStart(r) && t.unreadBuf == r.unreadBuf
    ensures Delivered(log, t, got)
  {
    hide Payloads;
  }

  // The segment numbered nextRecv is one the peer numbered, so nextRecv does not wrap.
  lemma {:induction false} TakeNextReceives(r: Receiver, log: seq<Packet>, out: set<Packet>, got: seq<byte>)
    requires Receives(r, log, out, got) && r.nextRecv in r.recvBuf && r.nextRecv < |log| < UINT32
    requires |r.recvQueue| < SEGMENT_TREE_CAPACITY
    ensures Receives(Receiver(r.nextRecv + 1, r.recvBuf - {r.nextRecv}, r.recvQueue[r.nextRecv := r.recvBuf[r.nextRecv]], r.unreadBuf), log, out, got)
  {
    hide Payloads, Contiguous, IsAckProtocol;
    RemoveSize(r.recvBuf, r.nextRecv);
    RemoveKeeps(r.recvBuf, r.nextRecv, out);
    ContiguousNext(r.recvQueue, r.nextRecv, r.recvBuf[r.nextRecv]);
  }

  lemma {:induction false} NextIsNumbered(r: Receiver, log: seq<Packet>, out: set<Packet>, got: seq<byte>)
    requires Receives(r, log, out, got) && r.nextRecv in r.recvBuf
    requires forall p | p in out && !IsAckProtocol(p.protocol) :: Matches(p, log)
    ensures r.nextRecv < |log|
  {
    hide Payloads, Contiguous, IsAckProtocol, Delivered;
    assert Matches(r.recvBuf[r.nextRecv].pkt, log);
  }

  lemma {:induction false} MoveOneReceives(r: Receiver, log: seq<Packet>, out: set<Packet>, got: seq<byte>)
    requires Receives(r, log, out, got) && CanMove(r) && |log| < UINT32
    requires forall p | p in out && !IsAckProtocol(p.protocol) :: Matches(p, log)
    ensures Receives(MoveOne(r), log, out, got) && r.nextRecv <= MoveOne(r).nextRecv
  {
    hide Receives, AddOne, Matches;
    var k := MinKey(r.recvBuf);
    if k < r.nextRecv {
      DropOldReceives(r, k, log, out, got);
    } else {
      NextIsNumbered(r, log, out, got);
      AddOneNumbered(r.nextRecv, |log|);
      TakeNextReceives(r, log, out, got);
    }
  }

  lemma {:induction false} AddOneNumbered(n: nat, m: nat)
    requires n < m < UINT32
    ensures AddOne(n) == n + 1
  {}

  // No segment at or below nextRecv waits in recvBuf.
  ghost predicate Settled(r: Receiver) {
    forall k | k in r.recvBuf :: k > r.nextRecv
  }

  lemma {:induction false} MoveAllReceives(r: Receiver, log: seq<Packet>, out: set<Packet>, got: seq<byte>)
    requires Receives(r, log, out, got) && |log| < UINT32
    requires forall p | p in out && !IsAckProtocol(p.protocol) :: Matches(p, log)
    ensures Receives(MoveAll(r), log, out, got) && r.nextRecv <= MoveAll(r).nextRecv
    ensures Settled(MoveAll(r))
    decreases |r.recvBuf|
  {
    hide Receives, Matches, Settled;
    if CanMove(r) {
      RemoveSize(r.recvBuf, MinKey(r.recvBuf));
      MoveOneReceives(r, log, out, got);
      MoveAllReceives(MoveOne(r), log, out, got);
    } else {
      StopSettled(r, log, out, got);
    }
  }

  // The move loop can only stop early on a full recvQueue, and then recvBuf is empty.
  lemma {:induction false} StopSettled(r: Receiver, log: seq<Packet>, out: set<Packet>, got: seq<byte>)
    requires Receives(r, log, out, got) && !CanMove(r)
    ensures Settled(r)
  {
    hide SentTo, Delivered, Keyed, Contiguous;
    if |r.recvQueue| == SEGMENT_TREE_CAPACITY {
      assert r.recvBuf == map[];
    }
  }

  lemma {:induction false} AcceptKeeps(a: Side, p: Packet, b: Side)
    requires Pair(a, b) && p in b.out && !IsAckProtocol(p.protocol)
    ensures Pair(a.(e := Accept(a.e, p)), b)
    ensures Settled(a.e.rcv) ==> Settled(Accept(a.e, p).rcv)
  {
    hide Pair, MoveAll, WindowAfter, Receives, Matches, Settled, IsAckProtocol;
    if !Dropped(a.e.rcv) {
      ReceivesPair(a, b);
      FileReceives(a.e.rcv, p, b.log, b.out, a.got);
      MoveAllReceives(Filed(a.e.rcv, p), b.log, b.out, a.got);
      PairOfReceives(a, a.(e := Accept(a.e, p)), b);
    }
  }

  lemma {:induction false} ReceiveKeeps(a: Side, p: Packet, now: int, b: Side)
    requires Pair(a, b) && p in b.out && !IsAckProtocol(p.protocol)
    ensures Pair(a.(e := Receive(a.e, p, now)), b)
    ensures Settled(a.e.rcv) ==> Settled(Receive(a.e, p, now).rcv)
  {
    hide Pair, Accept, DropAcked, Settled, IsAckProtocol;
    TakeAckKeeps(a, p, b);
    var c := a.(e := TakeAck(a.e, p));
    var d := a.(e := RequestAck(TakeAck(a.e, p), now));
    PairOther(c, d, b);
    AcceptKeeps(d, p, b);
    PairOther(d.(e := Accept(d.e, p)), a.(e := Receive(a.e, p, now)), b);
  }

  lemma {:induction false} RespondKeeps(a: Side, c: Side, b: Side)
    requires Pair(a, b) && !a.e.isClient && a.e.state == ATTACHED && |a.log| + 1 < UINT32
    requires c.e == a.e.(snd := Enqueue(a.e.snd, OpenResponse(a.e)), state := ESTABLISHED)
    requires c.log == a.log + [OpenResponse(a.e)] && c.out == a.out && c.chan == a.chan && c.got == a.got
    ensures Pair(c, b)
  {
    hide Enqueue, Link, Receiving, Sending, AcksSafe;
    EnqueueKeeps(a, c, OpenResponse(a.e), b);
  }

  lemma {:induction false} ReceiveFrame(e: Endpoint, p: Packet, now: int)
    ensures var g := Receive(e, p, now);
      && g.isClient == e.isClient && g.state == e.state && g.openSent == e.openSent
      && g.mtu == e.mtu && g.mode == e.mode && g.peerLowEntropy == e.peerLowEntropy
      && g.snd == TakeAck(e, p).snd
  {
    hide DropAcked, MoveAll, WindowAfter, Dropped;
  }

  lemma {:induction false} InputKeeps(a: Side, now: int, b: Side)
    requires Pair(a, b) && a.chan != [] && |a.log| + 1 < UINT32
    ensures Pair(SideInput(a, now), b)
    ensures Settled(a.e.rcv) ==> Settled(SideInput(a, now).e.rcv)
  {
    hide Pair, Receive, InputAck, Enqueue, Dropped, Settled, IsAckProtocol, TakeAck;
    var p := a.chan[0];
    ConsumeKeeps(a, b);
    var c := a.(chan := a.chan[1..], clock := Max(a.clock, now));
    PairOther(a.(chan := a.chan[1..]), c, b);
    if IsAckProtocol(p.protocol) {
      InputAckKeeps(c, p, b);
      InputAckFrame(a.e, p);
    } else {
      var d := c.(e := NoteLowEntropy(a.e, p));
      PairOther(c, d, b);
      ReceiveKeeps(d, p, now, b);
      var f := d.(e := Receive(d.e, p, now));
      ReceiveFrame(d.e, p, now);
      if Responds(a.e, p) {
        TakeAckNumbers(d.e, p);
        RespondKeeps(f, SideInput(a, now), b);
      } else {
        PairOther(f, SideInput(a, now), b);
      }
    }
  }

  lemma {:induction false} InputAckFrame(e: Endpoint, p: Packet)
    ensures InputAck(e, p).rcv == e.rcv
    ensures IsAckProtocol(p.protocol) ==> !Responds(e, p)
  {}

  lemma {:induction false} TakeAckNumbers(e: Endpoint, p: Packet)
    ensures TakeAck(e, p).snd.nextSend == e.snd.nextSend
  {}

  // ---------------------------------------------------------------------------
  // Reading
  // ---------------------------------------------------------------------------

  // The first segment of the queue is the one right after what was read.
  lemma {:induction false} ContiguousPop(q: Tree, next: nat)
    requires Contiguous(q, next) && q != map[]
    ensures MinKey(q) == next - |q| && |q - {MinKey(q)}| == |q| - 1 && Contiguous(q - {MinKey(q)}, next)
  {
    assert |q| > 0 by { assert |q.Keys| == |q|; }
    assert next - |q| in q;
    RemoveSize(q, MinKey(q));
  }

  lemma {:induction false} PayloadsNext(log: seq<Packet>, i: nat)
    requires i < |log|
    ensures Payloads(log[..i + 1]) == Payloads(log[..i]) + log[i].payload
  {
    assert log[..i + 1][..i] == log[..i];
  }

  lemma {:induction false} PopDelivered(r: Receiver, log: seq<Packet>, got: seq<byte>)
    requires Delivered(log, r, got) && Contiguous(r.recvQueue, r.nextRecv) && r.recvQueue != map[]
    requires Matches(r.recvQueue[MinKey(r.recvQueue)].pkt, log) && Keyed(r.recvQueue)
    ensures Delivered(log, PopQueue(r), got + r.unreadBuf)
  {
    hide Contiguous, Payloads;
    ContiguousPop(r.recvQueue, r.nextRecv);
    PayloadsNext(log, QueueStart(r));
  }

  lemma {:induction false} PopReceives(r: Receiver, log: seq<Packet>, out: set<Packet>, got: seq<byte>)
    requires Receives(r, log, out, got) && r.recvQueue != map[]
    requires forall p | p in out && !IsAckProtocol(p.protocol) :: Matches(p, log)
    ensures Receives(PopQueue(r), log, out, got + r.unreadBuf)
  {
    hide Delivered, Contiguous, Matches, IsAckProtocol;
    assert Matches(r.recvQueue[MinKey(r.recvQueue)].pkt, log);
    PopDelivered(r, log, got);
    ContiguousPop(r.recvQueue, r.nextRecv);
    RemoveKeeps(r.recvQueue, MinKey(r.recvQueue), out);
  }

  lemma {:induction false} TakenPop(r: Receiver, n: nat)
    requires r.recvQueue != map[] && |r.unreadBuf| <= n
    ensures Taken(r, n) == r.unreadBuf + Taken(PopQueue(r), n - |r.unreadBuf|)
  {
    hide MinKey;
    assert Pending(r) == r.unreadBuf + Pending(PopQueue(r));
  }

  lemma {:induction false} TakenStop(r: Receiver, n: nat)
    requires ReadStops(r, n)
    ensures Taken(r, n) == r.unreadBuf[..Min(n, |r.unreadBuf|)]
  {}

  lemma {:induction false} StopReceives(r: Receiver, m: nat, log: seq<Packet>, out: set<Packet>, got: seq<byte>)
    requires Receives(r, log, out, got) && m <= |r.unreadBuf|
    ensures Receives(r.(unreadBuf := r.unreadBuf[m..]), log, out, got + r.unreadBuf[..m])
  {
    hide Contiguous, Keyed, SentTo, Payloads;
    assert got + r.unreadBuf[..m] + r.unreadBuf[m..] == got + r.unreadBuf;
  }

  lemma {:induction false} ReadReceives(r: Receiver, n: nat, log: seq<Packet>, out: set<Packet>, got: seq<byte>)
    requires Receives(r, log, out, got)
    requires forall p | p in out && !IsAckProtocol(p.protocol) :: Matches(p, log)
    ensures Receives(ReadRest(r, n), log, out, got + Taken(r, n))
    ensures ReadRest(r, n).nextRecv == r.nextRecv && ReadRest(r, n).recvBuf == r.recvBuf
    decreases |r.recvQueue|
  {
    hide Receives, Matches, IsAckProtocol, Taken, PopQueue;
    if ReadStops(r, n) {
      TakenStop(r, n);
      StopReceives(r, Min(n, |r.unreadBuf|), log, out, got);
    } else {
      PopReceives(r, log, out, got);
      TakenPop(r, n);
      PopFrame(r);
      if n > 0 {
        ReadReceives(PopQueue(r), n - |r.unreadBuf|, log, out, got + r.unreadBuf);
        assert got + r.unreadBuf + Taken(PopQueue(r), n - |r.unreadBuf|) == got + Taken(r, n);
      } else {
        assert Taken(r, 0) == [] by { TakenNone(r); }
        assert got + r.unreadBuf == got + Taken(r, n);
      }
    }
  }

  lemma {:induction false} PopFrame(r: Receiver)
    requires r.recvQueue != map[]
    ensures PopQueue(r).nextRecv == r.nextRecv && PopQueue(r).recvBuf == r.recvBuf && |PopQueue(r).recvQueue| < |r.recvQueue|
  {
    RemoveSize(r.recvQueue, MinKey(r.recvQueue));
  }

  lemma {:induction false} ReadKeeps(a: Side, n: nat, b: Side)
    requires Pair(a, b)
    ensures Pair(SideRead(a, n), b)
    ensures Settled(a.e.rcv) ==> Settled(SideRead(a, n).e.rcv)
  {
    hide Pair, Receives, ReadRest, ReadsResponse, Matches, Pending, IsAckProtocol;
    ReceivesPair(a, b);
    ReadReceives(a.e.rcv, n, b.log, b.out, a.got);
    PairOfReceives(a, SideRead(a, n), b);
  }
}
