/** One side of a session over packets, as a value (pkg/protocol/session.go). Each function
    is what one section of the source does to the state; `Session` runs the same sections
    as loops over the segment trees, and `Transport` lets two endpoints interleave them. */
module Endpoints {
  import opened Bytes
  import opened Fragment
  import opened Protocols
  import opened Segments

  const SEGMENT_TREE_CAPACITY: nat := 4096
  const SEND_QUEUE_CAPACITY: nat := 1024
  const MIN_WINDOW_SIZE: nat := 16
  const TX_COUNT_LIMIT: nat := 20
  const EARLY_RETRANSMISSION: nat := 3
  const EARLY_RETRANSMISSION_LIMIT: nat := 1
  const MAX_BACK_OFF_NANOS := 10_000_000_000
  const RETRANSMISSION_CHECK_DELAY := 10_000
  const PACKET_ACK_DELAY := 1_000
  const MIN_OUTPUT_INTERVAL := 1_000
  const INITIAL_RTO: nat := 2_000_000_000
  const MIN_RTO: nat := 16_500_000
  const HEARTBEAT_INTERVAL := 5_000_000
  const HEARTBEAT_JITTER := 1_000_000

  // The session states before closing.
  const ATTACHED: nat := 1
  const ESTABLISHED: nat := 2

  // The sending half: numbered segments wait in sendQueue, transmitted ones in sendBuf.
  datatype Sender = Sender(
    nextSend: nat,
    sendQueue: Tree,
    sendBuf: Tree,
    nextRetransmission: int,
    lastTX: int)                   // lastTXTime

  // The receiving half: segments out of order wait in recvBuf, those in order in recvQueue,
  // and the part of a segment that the application left over in unreadBuf.
  datatype Receiver = Receiver(
    nextRecv: nat,
    recvBuf: Tree,
    recvQueue: Tree,
    unreadBuf: seq<byte>)

  datatype Endpoint = Endpoint(
    isClient: bool,
    mtu: int,
    mode: int,                     // configured low entropy mode
    state: nat,
    openSent: bool,                // openSessionRequestSent
    peerLowEntropy: bool,          // clientUseLowEntropy
    remoteWindow: nat,
    ackPending: bool,              // ackOnDataRecv
    ackDeadline: int,
    snd: Sender,
    rcv: Receiver)

  // A session right after AddSession.
  // `now` is the time when the session is made.
  function NewEndpoint(isClient: bool, mtu: int, mode: int, now: int): (e: Endpoint) {
    Endpoint(isClient, mtu, mode, ATTACHED, false, false, MIN_WINDOW_SIZE, false, 0,
             Sender(0, map[], map[], 0, now), Receiver(0, map[], map[], []))
  }

  // atomic.Uint32.Add(1).
  function AddOne(n: nat): (r: nat) { (n + 1) % UINT32 }

  function ReceiveWindow(r: Receiver): (n: nat) {
    Max(0, SEGMENT_TREE_CAPACITY - |r.recvBuf| - |r.recvQueue|)
  }

  // `cwnd` is the congestion window.
  function SendWindow(e: Endpoint, cwnd: nat): (n: nat) {
    Max(0, Min(cwnd - |e.snd.sendBuf|, e.remoteWindow))
  }

  // isClientPacketSessionOpening.
  predicate Opening(e: Endpoint) {
    e.isClient && e.state == ATTACHED
  }

  // ---------------------------------------------------------------------------
  // Writing
  // ---------------------------------------------------------------------------

  // lowEntropySendConfig.
  function SendMode(e: Endpoint): (r: int) {
    if e.mode == MODE_OFF || (!e.isClient && !e.peerLowEntropy) then MODE_OFF else e.mode
  }

  function DataProtocol(e: Endpoint): (p: Protocol) {
    if e.isClient
    then (if SendMode(e) != MODE_OFF then DataClientToServerLowEntropy else DataClientToServer)
    else (if SendMode(e) != MODE_OFF then DataServerToClientLowEntropy else DataServerToClient)
  }

  function NewSegment(p: Packet): Segment { Segment(p, 0, 0, 0, 0) }

  // A segment takes the next sequence number and waits in the send queue.
  function Enqueue(s: Sender, p: Packet): (r: Sender) {
    s.(nextSend := AddOne(s.nextSend), sendQueue := s.sendQueue[p.seqNo := NewSegment(p)])
  }

  function SessionPacket(e: Endpoint, protocol: Protocol, payload: seq<byte>): (p: Packet) {
    Packet(protocol, e.snd.nextSend, 0, 0, 0, payload)
  }

  function DataPacket(e: Endpoint, part: seq<byte>, fragment: nat): (p: Packet) {
    Packet(DataProtocol(e), e.snd.nextSend, e.rcv.nextRecv, ReceiveWindow(e.rcv), fragment, part)
  }

  // Only without low entropy, and only up to 1024 bytes, the open request carries the data.
  function OpenPayload(e: Endpoint, b: seq<byte>): (r: seq<byte>) {
    if SendMode(e) == MODE_OFF && |b| <= MAX_SESSION_OPEN_PAYLOAD then b else []
  }

  function OpenRequest(e: Endpoint, b: seq<byte>): (p: Packet) {
    SessionPacket(e, OpenSessionRequest, OpenPayload(e, b))
  }

  function WriteOpen(e: Endpoint, b: seq<byte>): (r: Endpoint) {
    e.(openSent := true, snd := Enqueue(e.snd, OpenRequest(e, b)))
  }

  // The parts that writeChunk cuts; none when the MTU leaves no room.
  function PartsOf(e: Endpoint, b: seq<byte>): (r: seq<seq<byte>>) {
    match MaxFragmentSize(e.mtu, PacketTransport, SendMode(e))
    case Err => []
    case Ok(size) => if size <= 0 then [] else Fragments(b, size)
  }

  // The fragment loop: the first n of the remaining fragments are queued, numbered down to 0.
  // The loop stops short when the write deadline passes or the session ends.
  function QueueParts(e: Endpoint, parts: seq<seq<byte>>, n: nat): (r: Endpoint)
    requires n <= |parts|
    decreases n
  {
    if n == 0 then e
    else QueueParts(e.(snd := Enqueue(e.snd, DataPacket(e, parts[0], |parts| - 1))), parts[1..], n - 1)
  }

  // The bytes x that a Write of b hands to the session when it returns n, with or without an
  // error: all of b when it succeeds, and else b[..n] and a part of the chunk after it.
  predicate Carries(b: seq<byte>, n: nat, ok: bool, x: seq<byte>) {
    n <= |b| && (ok ==> n == |b|) && b[..n] <= x <= b && |x| <= n + MAX_PDU
  }

  // ---------------------------------------------------------------------------
  // Output
  // ---------------------------------------------------------------------------

  function Pow(b: nat, n: nat): (r: nat) {
    if n == 0 then 1 else b * Pow(b, n - 1)
  }

  // time.Duration(math.Pow(1.5, n)): the power is exact in a float64 for n <= 20, and the
  // conversion drops its fraction.
  function BackOff(n: nat): (r: nat) {
    PowPositive(n);
    Pow(3, n) / Pow(2, n)
  }

  lemma {:induction false} PowPositive(n: nat)
    ensures Pow(2, n) > 0
  {
    if n > 0 {
      PowPositive(n - 1);
    }
  }

  // txTimeout in microseconds for a retransmission timeout in nanoseconds.
  function TxTimeout(rto: nat, txCount: nat): (r: int)
    ensures 0 <= r <= MAX_BACK_OFF_NANOS / 1000
  {
    Min(rto * BackOff(txCount), MAX_BACK_OFF_NANOS) / 1000
  }

  lemma {:induction false} CancelFactor(a: int, b: int, m: int, x: int, y: int)
    requires m > 0 && x == a * m && y == b * m && x < y
    ensures a < b
  {
    if a >= b {
      MulMonotone(b, a, m);
    }
  }

  lemma {:induction false} TimesTwo(b: int, c: int, m: int)
    ensures (2 * b + c) * m == 2 * (b * m) + c * m && b * (2 * m) == 2 * (b * m)
  {}

  lemma {:induction false} TimesThree(q: int, c: int, m: int)
    ensures (3 * q + c) * m == 3 * (q * m) + c * m
  {}

  // A quotient with its numerator tripled and its divisor doubled, given by q and r, and by b and c.
  lemma {:induction false} RatioBounds(m: nat, q: nat, r: nat, b: nat, c: nat)
    requires m > 0 && r < m && c < 2 * m && 3 * (q * m + r) == b * (2 * m) + c
    ensures 3 * q - 1 <= 2 * b <= 3 * q + 2
  {
    var x, y := q * m, b * m;
    TimesTwo(b, 0, m);
    TimesTwo(b, 2, m);
    TimesThree(q, 0, m);
    TimesThree(q, 3, m);
    assert 3 * (x + r) == 2 * y + c;
    CancelFactor(2 * b + 0, 3 * q + 3, m, 2 * y, 3 * x + 3 * m);
    CancelFactor(3 * q + 0, 2 * b + 2, m, 3 * x, 2 * y + 2 * m);
  }

  lemma {:induction false} DivideBack(t: nat, m: nat) returns (r: nat)
    requires m > 0
    ensures r < m && t == t / m * m + r
  {
    r := t % m;
  }

  // Every back-off is one and a half times the one before it, up to rounding.
  lemma {:induction false} BackOffRatio(n: nat)
    ensures 3 * BackOff(n) - 1 <= 2 * BackOff(n + 1) <= 3 * BackOff(n) + 2
  {
    hide Pow;
    PowPositive(n);
    PowPositive(n + 1);
    PowNext(2, n);
    PowNext(3, n);
    var r := DivideBack(Pow(3, n), Pow(2, n));
    var c := DivideBack(Pow(3, n + 1), Pow(2, n + 1));
    RatioBounds(Pow(2, n), BackOff(n), r, BackOff(n + 1), c);
  }

  lemma {:induction false} BackOffGrows(n: nat)
    ensures 1 <= BackOff(n) <= BackOff(n + 1) && (n > 0 ==> BackOff(n) < BackOff(n + 1))
    decreases n
  {
    hide BackOff;
    FirstBackOffs();
    BackOffRatio(n);
    if n > 1 {
      BackOffGrows(n - 1);
    }
  }

  lemma {:induction false} PowNext(b: nat, n: nat)
    ensures Pow(b, n + 1) == b * Pow(b, n)
  {}

  lemma {:induction false} FirstBackOffs()
    ensures BackOff(0) == 1 && BackOff(1) == 1 && BackOff(2) == 2
  {
    assert Pow(2, 0) == 1 && Pow(3, 0) == 1;
    assert Pow(2, 1) == 2 && Pow(3, 1) == 3;
    assert Pow(2, 2) == 4 && Pow(3, 2) == 9;
  }

  // A segment waits longer after every transmission, up to 10 s.
  lemma {:induction false} TimeoutGrows(rto: nat, n: nat)
    ensures TxTimeout(rto, n) <= TxTimeout(rto, n + 1)
    ensures TxTimeout(rto, 1) == Min(rto, MAX_BACK_OFF_NANOS) / 1000
    ensures n > 0 && rto >= 1000 ==> TxTimeout(rto, n) < TxTimeout(rto, n + 1) || TxTimeout(rto, n + 1) == MAX_BACK_OFF_NANOS / 1000
  {
    hide BackOff;
    BackOffGrows(n);
    FirstBackOffs();
    MulLe(rto, BackOff(n), BackOff(n + 1));
    if n > 0 {
      MulLe(rto, BackOff(n) + 1, BackOff(n + 1));
    }
  }

  lemma {:induction false} MulLe(c: nat, a: nat, b: nat)
    requires a <= b
    ensures c * a <= c * b
  {
    assert c * b - c * a == c * (b - a);
  }

  // The acknowledgement carried by a data packet is refreshed at every transmission.
  function Refresh(p: Packet, nextRecv: nat): (r: Packet) {
    if IsDataAckProtocol(p.protocol) then p.(unAckSeq := nextRecv) else p
  }

  predicate Due(s: Segment, now: int) {
    || (s.ackCount >= EARLY_RETRANSMISSION && s.txCount <= EARLY_RETRANSMISSION_LIMIT)
    || now - s.txTime >= s.txTimeout
  }

  function Transmit(s: Segment, now: int, rto: nat, nextRecv: nat): (r: Segment) {
    Segment(Refresh(s.pkt, nextRecv), s.ackCount, s.txCount + 1, now, TxTimeout(rto, s.txCount + 1))
  }

  function Resent(s: Segment, now: int, rto: nat, nextRecv: nat): (r: Segment) {
    if Due(s, now) then Transmit(s.(ackCount := 0), now, rto, nextRecv) else s
  }

  // The retransmission pass over the segments numbered below `stop`.
  function ResendTree(t: Tree, now: int, rto: nat, nextRecv: nat, stop: nat): (r: Tree) {
    map k | k in t :: if k < stop then Resent(t[k], now, rto, nextRecv) else t[k]
  }

  ghost function ResentPackets(t: Tree, now: int, rto: nat, nextRecv: nat, stop: nat): set<Packet> {
    set k | k in t && k < stop && Due(t[k], now) :: Resent(t[k], now, rto, nextRecv).pkt
  }

  // The earliest deadline among the segments numbered below `stop`, if there is one.
  ghost predicate EarliestDeadline(t: Tree, stop: nat, d: int) {
    && (exists k :: k in t && k < stop && t[k].Deadline() == d)
    && (forall k | k in t && k < stop :: d <= t[k].Deadline())
  }

  // A pass that no segment stops.
  predicate NoneExhausted(t: Tree) {
    forall k | k in t :: t[k].txCount < TX_COUNT_LIMIT
  }

  predicate NoneDue(t: Tree, now: int) {
    forall k | k in t :: !Due(t[k], now)
  }

  // An output round that begins now does not begin with a retransmission pass.
  predicate NoPassDue(s: Sender, now: int) {
    s.sendBuf == map[] || now < s.nextRetransmission
  }

  function ResendAll(s: Sender, now: int, rto: nat, nextRecv: nat, nextTX: int): (r: Sender) {
    s.(sendBuf := ResendTree(s.sendBuf, now, rto, nextRecv, UINT32),
       nextRetransmission := nextTX,
       lastTX := if NoneDue(s.sendBuf, now) then s.lastTX else now)
  }

  // The next queued segment is data that must wait for the open response.
  ghost predicate DeferData(e: Endpoint) {
    Opening(e) && e.snd.sendQueue != map[] && IsDataProtocol(e.snd.sendQueue[MinKey(e.snd.sendQueue)].pkt.protocol)
  }

  // `sent` counts the transmissions of this output round.
  ghost predicate CanSendNew(e: Endpoint, cwnd: nat, sent: nat) {
    && e.snd.sendQueue != map[]
    && SEGMENT_TREE_CAPACITY - |e.snd.sendBuf| > 1
    && !DeferData(e)
    && sent < SendWindow(e, cwnd)
  }

  ghost function NextToSend(s: Sender, now: int, rto: nat, nextRecv: nat): (r: Segment)
    requires s.sendQueue != map[]
  {
    Transmit(s.sendQueue[MinKey(s.sendQueue)], now, rto, nextRecv)
  }

  ghost function SendNew(s: Sender, now: int, rto: nat, nextRecv: nat): (r: Sender)
    requires s.sendQueue != map[]
  {
    var x := NextToSend(s, now, rto, nextRecv);
    s.(sendQueue := s.sendQueue - {MinKey(s.sendQueue)},
       sendBuf := s.sendBuf[x.pkt.seqNo := x],
       nextRetransmission :=
         if s.sendBuf == map[] then Min(x.Deadline(), now + RETRANSMISSION_CHECK_DELAY)
         else Min(s.nextRetransmission, x.Deadline()),
       lastTX := now)
  }

  function AckPacket(e: Endpoint): (p: Packet) {
    Packet(if e.isClient then AckClientToServer else AckServerToClient,
           Max(0, e.snd.nextSend - 1), e.rcv.nextRecv, ReceiveWindow(e.rcv), 0, [])
  }

  // An acknowledgement is due, or nothing was sent for a jittered heartbeat interval.
  predicate AckDue(e: Endpoint, now: int, jitter: int) {
    (e.ackPending && now >= e.ackDeadline) || now - e.snd.lastTX > HEARTBEAT_INTERVAL + jitter
  }

  function SendAck(e: Endpoint, now: int): (r: Endpoint) {
    e.(ackPending := false, snd := e.snd.(lastTX := now))
  }

  // nextPacketOutputDelay, in microseconds.
  function OutputDelay(e: Endpoint, now: int, jitter: int): (r: int) {
    var heartbeat := e.snd.lastTX + HEARTBEAT_INTERVAL + jitter;
    var quiet := if e.ackPending then Min(e.ackDeadline, heartbeat) else heartbeat;
    var next :=
      if e.snd.sendBuf == map[] then quiet
      else if Opening(e) then e.snd.nextRetransmission
      else Min(e.snd.nextRetransmission, quiet);
    if e.snd.sendBuf == map[] && Opening(e) then HEARTBEAT_INTERVAL
    else if next - now <= 0 then MIN_OUTPUT_INTERVAL
    else next - now
  }

  // ---------------------------------------------------------------------------
  // Input
  // ---------------------------------------------------------------------------

  function DropAcked(t: Tree, unAckSeq: nat): (r: Tree) {
    map k | k in t && k >= unAckSeq :: t[k]
  }

  function RequestAck(e: Endpoint, now: int): (r: Endpoint) {
    if e.ackPending then e else e.(ackDeadline := now + PACKET_ACK_DELAY, ackPending := true)
  }

  // What the acknowledgement inside a data or ack packet does.
  function TakeAck(e: Endpoint, p: Packet): (r: Endpoint) {
    if IsDataAckProtocol(p.protocol)
    then e.(snd := e.snd.(sendBuf := DropAcked(e.snd.sendBuf, p.unAckSeq)), remoteWindow := p.windowSize)
    else e
  }

  // One more acknowledgement that stops right at a segment; the count is a byte.
  function CountAck(t: Tree, unAckSeq: nat): (r: Tree) {
    if unAckSeq in t then t[unAckSeq := t[unAckSeq].(ackCount := (t[unAckSeq].ackCount + 1) % 256)] else t
  }

  function InputAck(e: Endpoint, p: Packet): (r: Endpoint) {
    var f := TakeAck(e, p);
    f.(snd := f.snd.(sendBuf := CountAck(f.snd.sendBuf, p.unAckSeq)))
  }

  ghost predicate CanMove(r: Receiver) {
    && |r.recvQueue| < SEGMENT_TREE_CAPACITY
    && r.recvBuf != map[]
    && MinKey(r.recvBuf) <= r.nextRecv
  }

  // One round of moveRecvBufToRecvQueue: an old segment is dropped, the next one is moved.
  ghost function MoveOne(r: Receiver): (t: Receiver)
    requires r.recvBuf != map[]
  {
    var k := MinKey(r.recvBuf);
    if k < r.nextRecv then r.(recvBuf := r.recvBuf - {k})
    else r.(recvBuf := r.recvBuf - {k}, recvQueue := r.recvQueue[k := r.recvBuf[k]], nextRecv := AddOne(r.nextRecv))
  }

  ghost function MoveAll(r: Receiver): (t: Receiver)
    decreases |r.recvBuf|
  {
    if !CanMove(r) then r
    else
      MoveOneShrinks(r);
      MoveAll(MoveOne(r))
  }

  lemma {:induction false} MoveOneShrinks(r: Receiver)
    ensures CanMove(r) ==> |MoveOne(r).recvBuf| < |r.recvBuf|
  {
    if CanMove(r) {
      RemoveSize(r.recvBuf, MinKey(r.recvBuf));
    }
  }

  // The window of the peer after one round: the one in the segment, if it was data and moved.
  ghost function MovedWindow(r: Receiver, window: nat): (w: nat)
    requires r.recvBuf != map[]
  {
    var p := r.recvBuf[MinKey(r.recvBuf)].pkt;
    if MinKey(r.recvBuf) >= r.nextRecv && IsDataAckProtocol(p.protocol) then p.windowSize else window
  }

  ghost function WindowAfter(r: Receiver, window: nat): (w: nat)
    decreases |r.recvBuf|
  {
    if !CanMove(r) then window
    else
      MoveOneShrinks(r);
      WindowAfter(MoveOne(r), MovedWindow(r, window))
  }

  predicate Dropped(r: Receiver) {
    ReceiveWindow(r) <= 0 || |r.recvBuf| >= SEGMENT_TREE_CAPACITY
  }

  function Filed(r: Receiver, p: Packet): (t: Receiver) {
    r.(recvBuf := r.recvBuf[p.seqNo := NewSegment(p)])
  }

  // The segment is filed in recvBuf and everything that is now in order moves on; it is
  // dropped when the receive window or recvBuf is full.
  ghost function Accept(e: Endpoint, p: Packet): (r: Endpoint) {
    if Dropped(e.rcv) then e
    else e.(rcv := MoveAll(Filed(e.rcv, p)), remoteWindow := WindowAfter(Filed(e.rcv, p), e.remoteWindow))
  }

  // inputData up to the answer to an open request.
  ghost function Receive(e: Endpoint, p: Packet, now: int): (r: Endpoint) {
    RequestAck(Accept(RequestAck(TakeAck(e, p), now), p), now)
  }

  // The packet is an open request that this side answers.
  predicate Responds(e: Endpoint, p: Packet) {
    !e.isClient && p.protocol.OpenSessionRequest? && !Dropped(e.rcv) && e.state == ATTACHED
  }

  function OpenResponse(e: Endpoint): (p: Packet) {
    SessionPacket(e, OpenSessionResponse, [])
  }

  ghost function InputData(e: Endpoint, p: Packet, now: int): (r: Endpoint) {
    var g := Receive(e, p, now);
    if Responds(e, p) then g.(snd := Enqueue(g.snd, OpenResponse(e)), state := ESTABLISHED) else g
  }

  // The protocols that a side accepts; anything else is an input error.
  predicate Accepts(isClient: bool, p: Protocol) {
    if isClient
    then p.OpenSessionResponse? || p.DataServerToClient? || p.DataServerToClientLowEntropy? || p.AckServerToClient?
    else p.OpenSessionRequest? || p.DataClientToServer? || p.DataClientToServerLowEntropy? || p.AckClientToServer?
  }

  // Once the client sent low entropy data, the server may send it too.
  function NoteLowEntropy(e: Endpoint, p: Packet): (r: Endpoint) {
    if !e.isClient && p.protocol.DataClientToServerLowEntropy? then e.(peerLowEntropy := true) else e
  }

  // The open response completes the opening of a client, whether or not it was kept.
  function CompleteOpening(e: Endpoint, p: Packet): (r: Endpoint) {
    if Opening(e) && p.protocol.OpenSessionResponse? then e.(state := ESTABLISHED) else e
  }

  ghost function Input(e: Endpoint, p: Packet, now: int): (r: Endpoint) {
    if IsAckProtocol(p.protocol) then InputAck(e, p)
    else CompleteOpening(InputData(NoteLowEntropy(e, p), p, now), p)
  }

  // ---------------------------------------------------------------------------
  // Reading
  // ---------------------------------------------------------------------------

  // The payloads of a tree in sequence order.
  ghost function InOrder(t: Tree): (r: seq<byte>)
    decreases |t|
  {
    if t == map[] then []
    else
      RemoveSize(t, MinKey(t));
      t[MinKey(t)].pkt.payload + InOrder(t - {MinKey(t)})
  }

  // The bytes that the application has not read yet.
  ghost function Pending(r: Receiver): (b: seq<byte>) {
    r.unreadBuf + InOrder(r.recvQueue)
  }

  // The bytes a Read with room for n bytes returns.
  ghost function Taken(r: Receiver, n: nat): (b: seq<byte>) {
    Pending(r)[..Min(n, |Pending(r)|)]
  }

  lemma {:induction false} TakenNone(r: Receiver)
    ensures Taken(r, 0) == []
  {}

  // The first queued segment becomes the left-over bytes.
  ghost function PopQueue(r: Receiver): (t: Receiver)
    requires r.recvQueue != map[]
  {
    var k := MinKey(r.recvQueue);
    r.(recvQueue := r.recvQueue - {k}, unreadBuf := r.recvQueue[k].pkt.payload)
  }

  // The left-over bytes, if any, are enough for the n bytes asked for, or nothing follows them.
  predicate ReadStops(r: Receiver, n: nat) {
    n < |r.unreadBuf| || (r.unreadBuf != [] && n == |r.unreadBuf|) || r.recvQueue == map[]
  }

  // What a Read with room for n > 0 bytes leaves. With n = 0 it is the round of its loop that
  // takes one segment off the queue and copies nothing.
  ghost function ReadRest(r: Receiver, n: nat): (t: Receiver)
    decreases |r.recvQueue|
  {
    if ReadStops(r, n) then r.(unreadBuf := r.unreadBuf[Min(n, |r.unreadBuf|)..])
    else if n == 0 then PopQueue(r)
    else
      RemoveSize(r.recvQueue, MinKey(r.recvQueue));
      ReadRest(PopQueue(r), n - |r.unreadBuf|)
  }

  // Whether a Read takes an open response off the queue.
  ghost predicate ReadsResponse(r: Receiver, n: nat)
    decreases |r.recvQueue|
  {
    if ReadStops(r, n) then false
    else
      RemoveSize(r.recvQueue, MinKey(r.recvQueue));
      || r.recvQueue[MinKey(r.recvQueue)].pkt.protocol.OpenSessionResponse?
      || (n > 0 && ReadsResponse(PopQueue(r), n - |r.unreadBuf|))
  }

  ghost function ReadState(e: Endpoint, n: nat): (r: Endpoint) {
    e.(rcv := ReadRest(e.rcv, n),
       state := if Opening(e) && ReadsResponse(e.rcv, n) then ESTABLISHED else e.state)
  }
}
